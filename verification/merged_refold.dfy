/**
 A record folded again from merged logs (`_refold_merged`, when a listed file was gone):
 the storage gives each writer's whole log, but the record then forgets how many entries
 of each writer it folded, and takes the listed sizes for what it read.

 Entries appended later start over at their writer's first place. `NoTiesNoHarm`: where
 no appended entry has a timestamp its writer had before, the fold is the right one but
 for those places. `MergedTag` and the lemmas beside it: a field holds the right write if and
 only if none folded before, of its writer and timestamp, has a later place than it was given
 (or, for the earliest, none appended since an earlier one). They ask that rewinds hide the
 same entries either way; `SameHiddenWhen` says exactly when they do. `ReadTwice`: what was
 read past the listed size is folded twice.
 */
module MergedRefold {
  import opened Fold
  import opened RecordFold
  import opened RecordLogs

  /** What a record holds after a refold through merged logs, knowing `known`, and `more`
      entries appended since. */
  function AfterMerged(known: set<Marker>, before: seq<Arrival>, more: seq<Arrival>): Fold {
    AppliedAll(AppliedAll(NewFold(known), KeyedAll(before)), KeyedAll(more))
  }

  /** What it should hold. */
  function Right(known: set<Marker>, before: seq<Arrival>, more: seq<Arrival>): Fold {
    AppliedAll(NewFold(known), KeyedAll(before + more))
  }

  /** The keys given to all entries: the appended ones' start over. */
  function Restarted(before: seq<Arrival>, more: seq<Arrival>): (xs: seq<Keyed>) { KeyedAll(before) + KeyedAll(more) }

  lemma {:induction false} KeyedSize(arrivals: seq<Arrival>)
    ensures |KeyedAll(arrivals)| == |arrivals|
    ensures forall i :: 0 <= i < |arrivals| ==> IsKeyed(arrivals[i], KeyedAll(arrivals)[i])
  {
    if arrivals != [] { KeyedSize(arrivals[..|arrivals| - 1]); }
  }

  predicate IsKeyed(a: Arrival, x: Keyed) { x.entry == a.entry && x.key.ts == a.ts && x.key.writer == a.writer }

  /** A key as if the writer's places did not start over. */
  function Shifted(before: seq<Arrival>, k: Key): Key { k.(position := k.position + |LogOf(before, k.writer)|) }

  /** Appended entries, keyed with all, are `Shifted`. */
  function ShiftedAll(before: seq<Arrival>, xs: seq<Keyed>): (ys: seq<Keyed>)
    ensures |ys| == |xs|
  {
    seq(|xs|, i requires 0 <= i < |xs| => xs[i].(key := Shifted(before, xs[i].key)))
  }

  lemma {:induction false} MoreKeyed(before: seq<Arrival>, more: seq<Arrival>)
    ensures KeyedAll(before + more) == KeyedAll(before) + ShiftedAll(before, KeyedAll(more))
  {
    if more == [] {
      assert before + more == before;
    } else {
      var init, a := more[..|more| - 1], more[|more| - 1];
      MoreKeyed(before, init);
      assert before + more == (before + init) + [a] && more == init + [a];
      KeyedLast(before + init, a);
      KeyedLast(init, a);
      LogOfJoined(before, init, a.writer);
      var x := Keyed(a.entry, Key(a.ts, a.writer, |LogOf(init, a.writer)|));
      hide KeyedAll, LogOf;
      assert ShiftedAll(before, KeyedAll(init) + [x]) == ShiftedAll(before, KeyedAll(init)) + [x.(key := Shifted(before, x.key))];
    }
  }

  lemma {:induction false} MorePlaces(before: seq<Arrival>, more: seq<Arrival>)
    ensures |KeyedAll(before + more)| == |before| + |more| == |Restarted(before, more)|
    ensures KeyedAll(before + more)[..|before|] == KeyedAll(before)
    ensures |KeyedAll(more)| == |more|
    ensures forall i :: 0 <= i < |more| ==>
      var x := KeyedAll(more)[i]; KeyedAll(before + more)[|before| + i] == x.(key := Shifted(before, x.key))
  {
    KeyedSize(before);
    KeyedSize(more);
    MoreKeyed(before, more);
  }

  // --------------------------------------------------- keys moved, all comparisons kept

  /** How far the places of a timestamp and writer move. */
  type Move = (int, int) -> nat

  function MovedKey(k: Key, to: Move): Key { k.(position := k.position + to(k.ts, k.writer)) }

  function MovedStamp<V>(s: Stamped<V>, to: Move): Stamped<V> { s.(key := MovedKey(s.key, to)) }

  function MovedHeld<V>(held: Option<Stamped<V>>, to: Move): Option<Stamped<V>> {
    if held.None? then None else Some(MovedStamp(held.value, to))
  }

  function MovedMap<N, V>(held: map<N, Stamped<V>>, to: Move): map<N, Stamped<V>> {
    map n | n in held :: MovedStamp(held[n], to)
  }

  function MovedCell(c: Cell, to: Move): Cell { Cell(MovedHeld(c.latest, to), c.seen, MovedHeld(c.first, to)) }

  function MovedCells(cells: map<Name, Cell>, to: Move): map<Name, Cell> { map n | n in cells :: MovedCell(cells[n], to) }

  function MovedMarker(m: Marker, to: Move): Marker { m.(key := MovedKey(m.key, to)) }

  function MovedMarkers(rewinds: set<Marker>, to: Move): set<Marker> { set m | m in rewinds :: MovedMarker(m, to) }

  function MovedFeatures(held: Option<Versioned>, to: Move): Option<Versioned> {
    if held.None? then None else Some(held.value.(key := MovedKey(held.value.key, to)))
  }

  function MovedLast(held: Option<Key>, to: Move): Option<Key> {
    if held.None? then None else Some(MovedKey(held.value, to))
  }

  function MovedFold(f: Fold, to: Move): Fold {
    Fold(MovedMap(f.params, to), MovedCells(f.cells, to), MovedMap(f.tags, to), MovedMap(f.slots, to),
         MovedFeatures(f.features, to), MovedLast(f.lastMetric, to), MovedHeld(f.create, to),
         MovedMarkers(f.rewinds, to), f.stale)
  }

  function MovedKeyed(x: Keyed, to: Move): Keyed { x.(key := MovedKey(x.key, to)) }

  function MovedAll(xs: seq<Keyed>, to: Move): (ys: seq<Keyed>)
    ensures |ys| == |xs|
  {
    seq(|xs|, i requires 0 <= i < |xs| => MovedKeyed(xs[i], to))
  }

  lemma {:induction false} KeepAllMoved<N, V>(held: map<N, Stamped<V>>, writes: map<N, V>, k: Key, to: Move)
    ensures KeepAll(MovedMap(held, to), writes, MovedKey(k, to)) == MovedMap(KeepAll(held, writes, k), to)
  {
  }

  lemma {:induction false} LogValueMoved(c: Cell, v: Num, k: Key, to: Move)
    ensures LogValue(MovedCell(c, to), v, MovedKey(k, to)) == MovedCell(LogValue(c, v, k), to)
  {
  }

  lemma {:induction false} ParamNumberMoved(c: Cell, r: real, k: Key, to: Move)
    ensures ParamNumber(MovedCell(c, to), r, MovedKey(k, to)) == MovedCell(ParamNumber(c, r, k), to)
  {
  }

  lemma {:induction false} CellAtMoved(cells: map<Name, Cell>, n: Name, to: Move)
    ensures CellAt(MovedCells(cells, to), n) == MovedCell(CellAt(cells, n), to)
  {
  }

  lemma {:induction false} LogAllMoved(cells: map<Name, Cell>, values: map<Name, Num>, k: Key, to: Move)
    ensures LogAll(MovedCells(cells, to), values, MovedKey(k, to)) == MovedCells(LogAll(cells, values, k), to)
  {
    hide LogValue, MovedCell, CellAt;
    var a, b := LogAll(MovedCells(cells, to), values, MovedKey(k, to)), MovedCells(LogAll(cells, values, k), to);
    forall n | n in a ensures a[n] == b[n] {
      if n in values {
        CellAtMoved(cells, n, to);
        LogValueMoved(CellAt(cells, n), values[n], k, to);
      }
    }
    assert a.Keys == b.Keys;
  }

  lemma {:induction false} NumbersAllMoved(cells: map<Name, Cell>, numbers: map<Name, real>, k: Key, to: Move)
    ensures NumbersAll(MovedCells(cells, to), numbers, MovedKey(k, to)) == MovedCells(NumbersAll(cells, numbers, k), to)
  {
    hide ParamNumber, MovedCell, CellAt;
    var a, b := NumbersAll(MovedCells(cells, to), numbers, MovedKey(k, to)), MovedCells(NumbersAll(cells, numbers, k), to);
    forall n | n in a ensures a[n] == b[n] {
      if n in numbers {
        CellAtMoved(cells, n, to);
        ParamNumberMoved(CellAt(cells, n), numbers[n], k, to);
      }
    }
    assert a.Keys == b.Keys;
  }

  lemma {:induction false} FieldsMoved(features: Option<Versioned>, last: Option<Key>,
                                       create: Option<Stamped<Val>>, kind: Kind, k: Key, to: Move)
    ensures KeepFeatures(MovedFeatures(features, to), kind, MovedKey(k, to)) == MovedFeatures(KeepFeatures(features, kind, k), to)
    ensures KeepLastMetric(MovedLast(last, to), kind, MovedKey(k, to)) == MovedLast(KeepLastMetric(last, kind, k), to)
    ensures KeepCreate(MovedHeld(create, to), kind, MovedKey(k, to)) == MovedHeld(KeepCreate(create, kind, k), to)
  {
  }

  lemma {:induction false} RewoundMoved(rewinds: set<Marker>, x: Keyed, to: Move)
    ensures IsRewound(MovedMarkers(rewinds, to), MovedKeyed(x, to)) <==> IsRewound(rewinds, x)
  {
    if IsRewound(rewinds, x) {
      var r :| r in rewinds && r.step < x.entry.step.value && Before(x.key, r.key);
      assert MovedMarker(r, to) in MovedMarkers(rewinds, to);
    }
    if IsRewound(MovedMarkers(rewinds, to), MovedKeyed(x, to)) {
      var s :| s in MovedMarkers(rewinds, to) && s.step < x.entry.step.value && Before(MovedKey(x.key, to), s.key);
      var r :| r in rewinds && s == MovedMarker(r, to);
      assert r.step < x.entry.step.value && Before(x.key, r.key);
    }
  }

  lemma {:induction false} LearnedMoved(f: Fold, m: Marker, to: Move)
    ensures Learned(MovedFold(f, to), MovedMarker(m, to)) == MovedFold(Learned(f, m), to)
  {
    var all, n := f.rewinds + {m}, MovedMarker(m, to);
    assert n in MovedMarkers(f.rewinds, to) <==> m in f.rewinds by {
      if n in MovedMarkers(f.rewinds, to) {
        var r :| r in f.rewinds && n == MovedMarker(r, to);
        assert r == m;
      }
    }
    assert MovedMarkers(all, to) == MovedMarkers(f.rewinds, to) + {n};
  }

  lemma {:induction false} AppliedMoved(f: Fold, x: Keyed, to: Move)
    ensures Applied(MovedFold(f, to), MovedKeyed(x, to)) == MovedFold(Applied(f, x), to)
  {
    hide KeepAll, LogAll, NumbersAll, Numbers, IsRewound, MovedMap, MovedCells, MovedMarkers, KeepFeatures, KeepLastMetric, KeepCreate,
      MovedFeatures, MovedLast, MovedHeld, MovedKey;
    var kind, k := x.entry.kind, x.key;
    if IsMarker(x) {
      LearnedMoved(f, MarkerOf(x), to);
      assert MovedMarker(MarkerOf(x), to) == MarkerOf(MovedKeyed(x, to));
    } else {
      RewoundMoved(f.rewinds, x, to);
      KeepAllMoved(f.params, ParamWrites(kind), k, to);
      KeepAllMoved(f.tags, TagWrites(kind), k, to);
      KeepAllMoved(f.slots, SlotWrites(kind), k, to);
      NumbersAllMoved(f.cells, Numbers(ParamWrites(kind)), k, to);
      LogAllMoved(NumbersAll(f.cells, Numbers(ParamWrites(kind)), k), MetricWrites(kind), k, to);
      FieldsMoved(f.features, f.lastMetric, f.create, kind, k, to);
    }
  }

  /** Entries at moved places fold to the moved fold. */
  lemma {:induction false} AllMoved(f: Fold, xs: seq<Keyed>, to: Move)
    ensures AppliedAll(MovedFold(f, to), MovedAll(xs, to)) == MovedFold(AppliedAll(f, xs), to)
  {
    if xs != [] {
      var m := |xs| - 1;
      AllMoved(f, xs[..m], to);
      assert MovedAll(xs, to)[..m] == MovedAll(xs[..m], to);
      AppliedMoved(AppliedAll(f, xs[..m]), xs[m], to);
    }
  }

  // ------------------------------------------------------------------ without ties

  /** Some appended entry has the timestamp and writer. */
  ghost predicate AppendedAt(more: seq<Arrival>, ts: int, writer: int) {
    exists i :: 0 <= i < |more| && more[i].ts == ts && more[i].writer == writer
  }

  /** No appended entry has a timestamp that its writer had before. */
  ghost predicate Untied(before: seq<Arrival>, more: seq<Arrival>) {
    forall i :: 0 <= i < |before| ==> !AppendedAt(more, before[i].ts, before[i].writer)
  }

  /** Appended entries' places, set after the writer's others. */
  ghost function Since(before: seq<Arrival>, more: seq<Arrival>): Move {
    (ts, writer) => if AppendedAt(more, ts, writer) then |LogOf(before, writer)| else 0
  }

  /** Without ties a merged refold, and what is appended to it, is the right fold but for the
      places of what was appended. */
  lemma {:induction false} NoTiesNoHarm(known: set<Marker>, before: seq<Arrival>, more: seq<Arrival>)
    requires Untied(before, more) && known <= Markers(KeyedAll(before))
    ensures Right(known, before, more) == MovedFold(AfterMerged(known, before, more), Since(before, more))
  {
    var to := Since(before, more);
    var xs := Restarted(before, more);
    AppliedOn(NewFold(known), KeyedAll(before), KeyedAll(more));
    MovedToRight(before, more);
    forall m | m in known ensures MovedMarker(m, to) == m {
      var i :| 0 <= i < |KeyedAll(before)| && IsMarker(KeyedAll(before)[i]) && MarkerOf(KeyedAll(before)[i]) == m;
      KeyedSize(before);
      assert IsKeyed(before[i], KeyedAll(before)[i]);
    }
    assert MovedMarkers(known, to) == known;
    assert MovedFold(NewFold(known), to) == NewFold(known);
    AllMoved(NewFold(known), xs, to);
  }

  lemma {:induction false} MovedToRight(before: seq<Arrival>, more: seq<Arrival>)
    requires Untied(before, more)
    ensures MovedAll(Restarted(before, more), Since(before, more)) == KeyedAll(before + more)
  {
    var xs, ys, to := Restarted(before, more), KeyedAll(before + more), Since(before, more);
    MorePlaces(before, more);
    KeyedSize(before);
    KeyedSize(more);
    forall i | 0 <= i < |xs| ensures MovedKeyed(xs[i], to) == ys[i] {
      if i < |before| {
        assert IsKeyed(before[i], xs[i]) && xs[i] == ys[..|before|][i];
      } else {
        var j := i - |before|;
        assert IsKeyed(more[j], KeyedAll(more)[j]) && xs[i] == KeyedAll(more)[j];
        assert AppendedAt(more, more[j].ts, more[j].writer);
      }
    }
  }

  // ---------------------------------------------------------------------- with ties

  /** The visible entries `w` finds a write in. */
  ghost function Writers<V>(rewinds: set<Marker>, xs: seq<Keyed>, w: Keyed -> Option<V>): set<nat> {
    set i: nat | i < |xs| && Visible(rewinds, xs[i]) && w(xs[i]).Some?
  }

  /** Of the entries `those`, `i` has the greatest key, and is the last of any equal ones. */
  ghost predicate Wins(xs: seq<Keyed>, those: set<nat>, i: nat) {
    && i in those && i < |xs|
    && (forall j: nat :: j in those && j < |xs| ==> Yields(xs, j, i))
  }

  predicate Yields(xs: seq<Keyed>, j: nat, i: nat)
    requires i < |xs| && j < |xs|
  {
    !Before(xs[i].key, xs[j].key) && (j > i ==> Before(xs[j].key, xs[i].key))
  }

  /** The field holds what the winning write wrote. */
  ghost predicate Holds<V>(held: Option<Stamped<V>>, rewinds: set<Marker>, xs: seq<Keyed>, w: Keyed -> Option<V>) {
    if held.None? then Writers(rewinds, xs, w) == {}
    else exists i: nat :: HoldsAt(held.value, xs, Writers(rewinds, xs, w), w, i)
  }

  ghost predicate HoldsAt<V>(held: Stamped<V>, xs: seq<Keyed>, those: set<nat>, w: Keyed -> Option<V>, i: nat) {
    Wins(xs, those, i) && w(xs[i]) == Some(held.value) && held.key == xs[i].key
  }

  lemma {:induction false} HoldsStep<V>(held: Option<Stamped<V>>, rewinds: set<Marker>, xs: seq<Keyed>,
                                        w: Keyed -> Option<V>)
    requires xs != [] && Holds(held, rewinds, xs[..|xs| - 1], w)
    ensures var x := xs[|xs| - 1];
            Holds(if Visible(rewinds, x) && w(x).Some? then Latest(held, w(x).value, x.key) else held, rewinds, xs, w)
  {
    var m := |xs| - 1;
    var before, x := xs[..m], xs[m];
    var was, those := Writers(rewinds, before, w), Writers(rewinds, xs, w);
    assert forall j: nat :: j < m ==> before[j] == xs[j];
    if Visible(rewinds, x) && w(x).Some? {
      assert those == was + {m};
      var now := Latest(held, w(x).value, x.key).value;
      if held.Some? && Before(x.key, held.value.key) {
        var i: nat :| HoldsAt(held.value, before, was, w, i);
        forall j: nat | j in those && j < |xs| ensures Yields(xs, j, i) {
          assert j in was && j < m ==> Yields(before, j, i);
        }
        assert HoldsAt(now, xs, those, w, i);
      } else {
        forall j: nat | j in those && j < |xs| ensures Yields(xs, j, m) {
          if held.Some? && j < m {
            var i: nat :| HoldsAt(held.value, before, was, w, i);
            assert Yields(before, j, i);
          }
        }
        assert HoldsAt(now, xs, those, w, m);
      }
    } else {
      assert those == was;
      if held.Some? {
        var i: nat :| HoldsAt(held.value, before, was, w, i);
        forall j: nat | j in those && j < |xs| ensures Yields(xs, j, i) { assert Yields(before, j, i); }
        assert HoldsAt(held.value, xs, those, w, i);
      }
    }
  }

  lemma {:induction false} TagHeld(rewinds: set<Marker>, xs: seq<Keyed>, n: Name)
    requires Markers(xs) <= rewinds
    ensures Holds(At(AppliedAll(NewFold(rewinds), xs).tags, n), rewinds, xs, TagWrite(n))
  {
    if xs != [] {
      LastStep(rewinds, xs);
      TagHeld(rewinds, xs[..|xs| - 1], n);
      HoldsStep(At(AppliedAll(NewFold(rewinds), xs[..|xs| - 1]).tags, n), rewinds, xs, TagWrite(n));
    }
  }

  lemma {:induction false} ParamHeld(rewinds: set<Marker>, xs: seq<Keyed>, n: Name)
    requires Markers(xs) <= rewinds
    ensures Holds(At(AppliedAll(NewFold(rewinds), xs).params, n), rewinds, xs, ParamWrite(n))
  {
    if xs != [] {
      LastStep(rewinds, xs);
      ParamHeld(rewinds, xs[..|xs| - 1], n);
      HoldsStep(At(AppliedAll(NewFold(rewinds), xs[..|xs| - 1]).params, n), rewinds, xs, ParamWrite(n));
    }
  }

  lemma {:induction false} SlotHeld(rewinds: set<Marker>, xs: seq<Keyed>, slot: Slot)
    requires Markers(xs) <= rewinds
    ensures Holds(At(AppliedAll(NewFold(rewinds), xs).slots, slot), rewinds, xs, SlotWrite(slot))
  {
    if xs != [] {
      LastStep(rewinds, xs);
      SlotHeld(rewinds, xs[..|xs| - 1], slot);
      HoldsStep(At(AppliedAll(NewFold(rewinds), xs[..|xs| - 1]).slots, slot), rewinds, xs, SlotWrite(slot));
    }
  }

  /** What a write depends on is the entry, not its key. */
  ghost predicate OfEntry<V>(w: Keyed -> Option<V>) {
    forall x: Keyed, k: Key :: w(x.(key := k)) == w(x)
  }

  /** Rewinds hide the same entries either way; so they do when there are none. */
  ghost predicate SameHidden(merged: set<Marker>, right: set<Marker>, before: seq<Arrival>, more: seq<Arrival>) {
    && Markers(Restarted(before, more)) <= merged && Markers(KeyedAll(before + more)) <= right
    && |KeyedAll(before + more)| == |Restarted(before, more)|
    && forall i :: 0 <= i < |Restarted(before, more)| ==>
         (Visible(merged, Restarted(before, more)[i]) <==> Visible(right, KeyedAll(before + more)[i]))
  }

  /** The key an entry was given. */
  function Given(before: seq<Arrival>, k: Key): Key {
    var n := |LogOf(before, k.writer)|;
    if k.position < n then k else k.(position := k.position - n)
  }

  /** Of the writes `those`, one folded before, of the same timestamp and writer, has a later
      place than the one that the entry of key `k`, appended since, was given. */
  ghost predicate Overtaken(before: seq<Arrival>, those: set<nat>, k: Key) {
    && k.position >= |LogOf(before, k.writer)|
    && exists j :: j in those && Overtakes(before, j, k)
  }

  ghost predicate Overtakes(before: seq<Arrival>, j: nat, k: Key) {
    && j < |KeyedAll(before)| && SameKey(KeyedAll(before)[j].key, k)
    && KeyedAll(before)[j].key.position > Given(before, k).position
  }

  lemma {:induction false} SameEntry(before: seq<Arrival>, more: seq<Arrival>, i: nat)
    requires i < |Restarted(before, more)|
    ensures |KeyedAll(before + more)| == |Restarted(before, more)|
    ensures KeyedAll(before + more)[i] == Restarted(before, more)[i].(key := KeyedAll(before + more)[i].key)
    ensures Restarted(before, more)[i].key == Given(before, KeyedAll(before + more)[i].key)
    ensures i < |before| <==> KeyedAll(before + more)[i].key.position < |LogOf(before, KeyedAll(before + more)[i].key.writer)|
    ensures |before| == |KeyedAll(before)| && (i < |before| ==> Restarted(before, more)[i] == KeyedAll(before)[i])
  {
    MorePlaces(before, more);
    KeyedSize(before);
    KeyedDistinct(before);
    if i < |before| {
      assert KeyedAll(before + more)[..|before|][i] == KeyedAll(before)[i];
    } else {
      assert Restarted(before, more)[i] == KeyedAll(more)[i - |before|];
    }
  }

  /** A write yields to the right one at the keys given too, unless it overtakes it. */
  lemma {:induction false} YieldsStill(before: seq<Arrival>, more: seq<Arrival>, j: nat, r: nat)
    requires j < |Restarted(before, more)| && r < |Restarted(before, more)|
    requires |KeyedAll(before + more)| == |Restarted(before, more)| && Yields(KeyedAll(before + more), j, r)
    ensures Yields(Restarted(before, more), j, r)
            <==> !(r >= |before| && Overtakes(before, j, KeyedAll(before + more)[r].key))
  {
    SameEntry(before, more, j);
    SameEntry(before, more, r);
    hide KeyedAll, Restarted, LogOf;
  }

  /** The right write wins at the keys given if and only if none folded before overtakes it. */
  lemma {:induction false} WinsStill(before: seq<Arrival>, more: seq<Arrival>, those: set<nat>, r: nat)
    requires |KeyedAll(before + more)| == |Restarted(before, more)| && Wins(KeyedAll(before + more), those, r)
    ensures Wins(Restarted(before, more), those, r) <==> !Overtaken(before, those, KeyedAll(before + more)[r].key)
  {
    hide Restarted, KeyedAll, LogOf, Overtakes, Yields;
    var xs, ys := Restarted(before, more), KeyedAll(before + more);
    SameEntry(before, more, r);
    forall j: nat | j in those && j < |xs| ensures Yields(xs, j, r) <==> !(r >= |before| && Overtakes(before, j, ys[r].key)) {
      assert Yields(ys, j, r);
      YieldsStill(before, more, j, r);
    }
    if Overtaken(before, those, ys[r].key) {
      var j :| j in those && Overtakes(before, j, ys[r].key);
      InBefore(before, more, j, ys[r].key);
    }
  }

  lemma {:induction false} InBefore(before: seq<Arrival>, more: seq<Arrival>, j: nat, k: Key)
    requires Overtakes(before, j, k)
    ensures j < |Restarted(before, more)|
  {
  }

  /** The field holds what it should, its key's place as given. */
  ghost predicate RightHeld<V>(merged: Option<Stamped<V>>, right: Option<Stamped<V>>, before: seq<Arrival>) {
    if right.None? then merged.None?
    else merged.Some? && merged.value.value == right.value.value && merged.value.key == Given(before, right.value.key)
  }

  lemma {:induction false} OneWinner(xs: seq<Keyed>, those: set<nat>, i: nat, r: nat)
    requires Wins(xs, those, i) && Wins(xs, those, r)
    ensures i == r
  {
    assert Yields(xs, r, i) && Yields(xs, i, r);
  }

  /** A winner at the key of another is overtaken by none the other is. */
  lemma {:induction false} LoserDiffers(before: seq<Arrival>, more: seq<Arrival>, those: set<nat>, i: nat, r: nat)
    requires |KeyedAll(before + more)| == |Restarted(before, more)| && r < |Restarted(before, more)|
    requires Wins(Restarted(before, more), those, i) && Overtaken(before, those, KeyedAll(before + more)[r].key)
    ensures Restarted(before, more)[i].key != Restarted(before, more)[r].key
  {
    hide KeyedAll, LogOf;
    var xs, k := Restarted(before, more), KeyedAll(before + more)[r].key;
    SameEntry(before, more, r);
    var j :| j in those && Overtakes(before, j, k);
    InBefore(before, more, j, k);
    SameEntry(before, more, j);
    assert Yields(xs, j, i);
  }

  lemma {:induction false} SameWriters<V>(rm: set<Marker>, rr: set<Marker>, before: seq<Arrival>,
                                          more: seq<Arrival>, w: Keyed -> Option<V>)
    requires SameHidden(rm, rr, before, more) && OfEntry(w)
    ensures Writers(rm, Restarted(before, more), w) == Writers(rr, KeyedAll(before + more), w)
    ensures forall i :: 0 <= i < |Restarted(before, more)| ==> w(Restarted(before, more)[i]) == w(KeyedAll(before + more)[i])
  {
    hide KeyedAll, LogOf, Restarted;
    forall i | 0 <= i < |Restarted(before, more)| ensures w(Restarted(before, more)[i]) == w(KeyedAll(before + more)[i]) {
      SameEntry(before, more, i);
    }
  }

  /** A field is right after a merged refold if and only if its right write is not overtaken. */
  lemma {:induction false} HeldRight<V>(merged: Option<Stamped<V>>, right: Option<Stamped<V>>, rm: set<Marker>, rr: set<Marker>,
                                        before: seq<Arrival>, more: seq<Arrival>, w: Keyed -> Option<V>)
    requires SameHidden(rm, rr, before, more) && OfEntry(w)
    requires Holds(merged, rm, Restarted(before, more), w) && Holds(right, rr, KeyedAll(before + more), w)
    ensures RightHeld(merged, right, before)
            <==> (right.Some? ==> !Overtaken(before, Writers(rr, KeyedAll(before + more), w), right.value.key))
  {
    hide KeyedAll, LogOf, Restarted, Writers, Given, Overtaken, Wins;
    SameWriters(rm, rr, before, more, w);
    var xs, ys, those := Restarted(before, more), KeyedAll(before + more), Writers(rr, KeyedAll(before + more), w);
    if right.None? {
      forall i ensures !Wins(xs, those, i) { NoWinner(xs, those, i); }
    } else {
      var r: nat :| HoldsAt(right.value, ys, those, w, r);
      WinnerIn(ys, those, r);
      var i: nat :| HoldsAt(merged.value, xs, those, w, i);
      WinnerIn(xs, those, i);
      WinsStill(before, more, those, r);
      SameEntry(before, more, r);
      if Wins(xs, those, r) {
        OneWinner(xs, those, i, r);
      } else {
        LoserDiffers(before, more, those, i, r);
      }
    }
  }

  lemma {:induction false} WinnerIn(xs: seq<Keyed>, those: set<nat>, i: nat)
    requires Wins(xs, those, i)
    ensures i < |xs| && i in those && those != {}
  {
  }

  lemma {:induction false} NoWinner(xs: seq<Keyed>, those: set<nat>, i: nat)
    requires those == {}
    ensures !Wins(xs, those, i)
  {
  }

  lemma {:induction false} FoldedRestarted(known: set<Marker>, before: seq<Arrival>, more: seq<Arrival>)
    ensures AfterMerged(known, before, more) == AppliedAll(NewFold(known), Restarted(before, more))
  {
    AppliedOn(NewFold(known), KeyedAll(before), KeyedAll(more));
  }

  /** A tag is right after a merged refold if and only if no write of it folded before, by the
      writer and at the timestamp of the right one, has a later place than that one was given. */
  lemma {:induction false} MergedTag(rm: set<Marker>, rr: set<Marker>, before: seq<Arrival>,
                                     more: seq<Arrival>, n: Name)
    requires SameHidden(rm, rr, before, more)
    ensures var merged, right := At(AfterMerged(rm, before, more).tags, n), At(Right(rr, before, more).tags, n);
            RightHeld(merged, right, before)
            <==> (right.Some? ==> !Overtaken(before, Writers(rr, KeyedAll(before + more), TagWrite(n)), right.value.key))
  {
    FoldedRestarted(rm, before, more);
    TagHeld(rm, Restarted(before, more), n);
    TagHeld(rr, KeyedAll(before + more), n);
    HeldRight(At(AfterMerged(rm, before, more).tags, n), At(Right(rr, before, more).tags, n), rm, rr, before, more, TagWrite(n));
  }

  /** So is a param, */
  lemma {:induction false} MergedParam(rm: set<Marker>, rr: set<Marker>, before: seq<Arrival>,
                                       more: seq<Arrival>, n: Name)
    requires SameHidden(rm, rr, before, more)
    ensures var merged, right := At(AfterMerged(rm, before, more).params, n), At(Right(rr, before, more).params, n);
            RightHeld(merged, right, before)
            <==> (right.Some? ==> !Overtaken(before, Writers(rr, KeyedAll(before + more), ParamWrite(n)), right.value.key))
  {
    FoldedRestarted(rm, before, more);
    ParamHeld(rm, Restarted(before, more), n);
    ParamHeld(rr, KeyedAll(before + more), n);
    HeldRight(At(AfterMerged(rm, before, more).params, n), At(Right(rr, before, more).params, n), rm, rr, before, more, ParamWrite(n));
  }

  /** and every input, output, definition field and intent. */
  lemma {:induction false} MergedSlot(rm: set<Marker>, rr: set<Marker>, before: seq<Arrival>,
                                      more: seq<Arrival>, slot: Slot)
    requires SameHidden(rm, rr, before, more)
    ensures var merged, right := At(AfterMerged(rm, before, more).slots, slot), At(Right(rr, before, more).slots, slot);
            RightHeld(merged, right, before)
            <==> (right.Some? ==> !Overtaken(before, Writers(rr, KeyedAll(before + more), SlotWrite(slot)), right.value.key))
  {
    FoldedRestarted(rm, before, more);
    SlotHeld(rm, Restarted(before, more), slot);
    SlotHeld(rr, KeyedAll(before + more), slot);
    HeldRight(At(AfterMerged(rm, before, more).slots, slot), At(Right(rr, before, more).slots, slot), rm, rr, before, more, SlotWrite(slot));
  }

  // The last metric, the features and the metric cells.

  function MetricsWrite(): Keyed -> Option<bool> {
    (x: Keyed) => if x.entry.kind.Metrics? then Some(true) else None
  }

  function KeptAt(k: Option<Key>): Option<Stamped<bool>> { if k.Some? then Some(Stamped(true, k.value)) else None }

  lemma {:induction false} LastMetricHeld(rewinds: set<Marker>, xs: seq<Keyed>)
    requires Markers(xs) <= rewinds
    ensures Holds(KeptAt(AppliedAll(NewFold(rewinds), xs).lastMetric), rewinds, xs, MetricsWrite())
  {
    if xs != [] {
      LastStep(rewinds, xs);
      LastMetricHeld(rewinds, xs[..|xs| - 1]);
      HoldsStep(KeptAt(AppliedAll(NewFold(rewinds), xs[..|xs| - 1]).lastMetric), rewinds, xs, MetricsWrite());
    }
  }

  /** The last metric's key is right if and only if its entry is not overtaken. */
  lemma {:induction false} MergedLastMetric(rm: set<Marker>, rr: set<Marker>, before: seq<Arrival>, more: seq<Arrival>)
    requires SameHidden(rm, rr, before, more)
    ensures var merged, right := KeptAt(AfterMerged(rm, before, more).lastMetric), KeptAt(Right(rr, before, more).lastMetric);
            RightHeld(merged, right, before)
            <==> (right.Some? ==> !Overtaken(before, Writers(rr, KeyedAll(before + more), MetricsWrite()), right.value.key))
  {
    FoldedRestarted(rm, before, more);
    LastMetricHeld(rm, Restarted(before, more));
    LastMetricHeld(rr, KeyedAll(before + more));
    HeldRight(KeptAt(AfterMerged(rm, before, more).lastMetric), KeptAt(Right(rr, before, more).lastMetric), rm, rr, before, more,
              MetricsWrite());
  }

  /** Features of one version. */
  function FeaturesWrite(version: int): Keyed -> Option<Val> {
    (x: Keyed) => if x.entry.kind.Features? && x.entry.kind.version == version then Some(x.entry.kind.facts) else None
  }

  function FactsAt(held: Option<Versioned>): Option<Stamped<Val>> {
    if held.Some? then Some(Stamped(held.value.facts, held.value.key)) else None
  }

  /** What is held is the winner of the highest version. */
  ghost predicate FeaturesHeld(held: Option<Versioned>, rewinds: set<Marker>, xs: seq<Keyed>) {
    && (forall i :: 0 <= i < |xs| && Visible(rewinds, xs[i]) && xs[i].entry.kind.Features? ==>
          held.Some? && xs[i].entry.kind.version <= held.value.version)
    && (held.Some? ==> Holds(FactsAt(held), rewinds, xs, FeaturesWrite(held.value.version)))
  }

  lemma {:induction false} FeaturesAreHeld(rewinds: set<Marker>, xs: seq<Keyed>)
    requires Markers(xs) <= rewinds
    ensures FeaturesHeld(AppliedAll(NewFold(rewinds), xs).features, rewinds, xs)
  {
    if xs != [] {
      LastStep(rewinds, xs);
      FeaturesAreHeld(rewinds, xs[..|xs| - 1]);
      FeaturesStep(AppliedAll(NewFold(rewinds), xs[..|xs| - 1]).features, rewinds, xs);
    }
  }

  lemma {:induction false} FeaturesStep(held: Option<Versioned>, rewinds: set<Marker>, xs: seq<Keyed>)
    requires xs != [] && FeaturesHeld(held, rewinds, xs[..|xs| - 1])
    ensures var x := xs[|xs| - 1];
            FeaturesHeld(if Visible(rewinds, x) then KeepFeatures(held, x.entry.kind, x.key) else held, rewinds, xs)
  {
    hide Holds, Visible;
    var before, x := xs[..|xs| - 1], xs[|xs| - 1];
    var now := if Visible(rewinds, x) then KeepFeatures(held, x.entry.kind, x.key) else held;
    assert forall i :: 0 <= i < |before| ==> before[i] == xs[i];
    if now.Some? {
      var v := now.value.version;
      if held.Some? && held.value.version == v {
        HoldsStep(FactsAt(held), rewinds, xs, FeaturesWrite(v));
      } else {
        NoneWrites(rewinds, before, FeaturesWrite(v));
        HoldsStep(None, rewinds, xs, FeaturesWrite(v));
      }
    }
  }

  lemma {:induction false} NoneWrites<V>(rewinds: set<Marker>, xs: seq<Keyed>, w: Keyed -> Option<V>)
    requires forall i :: 0 <= i < |xs| && Visible(rewinds, xs[i]) ==> w(xs[i]).None?
    ensures Holds(None, rewinds, xs, w)
  {
  }

  /** Features are right if and only if the right ones are not overtaken by any of their version. */
  lemma {:induction false} MergedFeatures(rm: set<Marker>, rr: set<Marker>, before: seq<Arrival>, more: seq<Arrival>)
    requires SameHidden(rm, rr, before, more)
    ensures var merged, right := AfterMerged(rm, before, more).features, Right(rr, before, more).features;
            && (merged.None? <==> right.None?)
            && (right.Some? ==>
                  && merged.value.version == right.value.version
                  && (RightHeld(FactsAt(merged), FactsAt(right), before)
                      <==> !Overtaken(before, Writers(rr, KeyedAll(before + more), FeaturesWrite(right.value.version)), right.value.key)))
  {
    FoldedRestarted(rm, before, more);
    FeaturesAreHeld(rm, Restarted(before, more));
    FeaturesAreHeld(rr, KeyedAll(before + more));
    var merged, right := AfterMerged(rm, before, more).features, Right(rr, before, more).features;
    SameVersion(merged, right, rm, rr, before, more);
    if right.Some? {
      HeldRight(FactsAt(merged), FactsAt(right), rm, rr, before, more, FeaturesWrite(right.value.version));
    }
  }

  lemma {:induction false} WriterAt<V>(held: Stamped<V>, rewinds: set<Marker>, xs: seq<Keyed>, w: Keyed -> Option<V>) returns (i: nat)
    requires Holds(Some(held), rewinds, xs, w)
    ensures i < |xs| && Visible(rewinds, xs[i]) && w(xs[i]) == Some(held.value)
  {
    i :| HoldsAt(held, xs, Writers(rewinds, xs, w), w, i);
  }

  lemma {:induction false} SameVersion(merged: Option<Versioned>, right: Option<Versioned>, rm: set<Marker>, rr: set<Marker>,
                                       before: seq<Arrival>, more: seq<Arrival>)
    requires SameHidden(rm, rr, before, more)
    requires FeaturesHeld(merged, rm, Restarted(before, more)) && FeaturesHeld(right, rr, KeyedAll(before + more))
    ensures merged.None? <==> right.None?
    ensures right.Some? ==> merged.value.version == right.value.version
  {
    hide KeyedAll, LogOf, Restarted, Holds, Visible, Markers;
    var xs, ys := Restarted(before, more), KeyedAll(before + more);
    forall i: nat | i < |xs| ensures xs[i].entry == ys[i].entry { SameEntry(before, more, i); }
    if merged.Some? {
      var i := WriterAt(FactsAt(merged).value, rm, xs, FeaturesWrite(merged.value.version));
      assert Visible(rr, ys[i]);
    }
    if right.Some? {
      var i := WriterAt(FactsAt(right).value, rr, ys, FeaturesWrite(right.value.version));
      assert Visible(rm, xs[i]);
    }
  }

  /** What a metric's cell holds last: the winning logged value, a param's number while nothing
      was logged. */
  function LastWrite(logged: bool, n: Name): Keyed -> Option<Num> { if logged then MetricWrite(n) else NumberWrite(n) }

  ghost predicate IsLogged(rewinds: set<Marker>, xs: seq<Keyed>, n: Name) { Writers(rewinds, xs, MetricWrite(n)) != {} }

  lemma {:induction false} LatestHeld(rewinds: set<Marker>, xs: seq<Keyed>, n: Name)
    requires Markers(xs) <= rewinds
    ensures var c := CellAt(AppliedAll(NewFold(rewinds), xs).cells, n);
            && (c.seen.Some? <==> IsLogged(rewinds, xs, n))
            && Holds(c.latest, rewinds, xs, LastWrite(IsLogged(rewinds, xs, n), n))
  {
    if xs != [] {
      var before, x := xs[..|xs| - 1], xs[|xs| - 1];
      LastStep(rewinds, xs);
      LatestHeld(rewinds, before, n);
      var f := AppliedAll(NewFold(rewinds), before);
      CellsAfter(f, x.entry.kind, x.key, n);
      LatestStep(CellAt(f.cells, n), rewinds, xs, n);
    }
  }

  lemma {:induction false} LatestStep(c: Cell, rewinds: set<Marker>, xs: seq<Keyed>, n: Name)
    requires xs != [] && (c.seen.Some? <==> IsLogged(rewinds, xs[..|xs| - 1], n))
    requires Holds(c.latest, rewinds, xs[..|xs| - 1], LastWrite(IsLogged(rewinds, xs[..|xs| - 1], n), n))
    ensures var x := xs[|xs| - 1];
            var d := if Visible(rewinds, x) then CellStep(c, x.entry.kind, n, x.key) else c;
            && (d.seen.Some? <==> IsLogged(rewinds, xs, n)) && Holds(d.latest, rewinds, xs, LastWrite(IsLogged(rewinds, xs, n), n))
  {
    var before, x := xs[..|xs| - 1], xs[|xs| - 1];
    NextWriters(rewinds, xs, MetricWrite(n));
    hide Holds, Visible, Writers;
    if Visible(rewinds, x) && n in MetricWrites(x.entry.kind) && c.seen.None? {
      NothingHeld(rewinds, before, MetricWrite(n));
      HoldsStep(None, rewinds, xs, MetricWrite(n));
    } else if Visible(rewinds, x) && n in MetricWrites(x.entry.kind) {
      HoldsStep(c.latest, rewinds, xs, MetricWrite(n));
    } else {
      HoldsStep(c.latest, rewinds, xs, LastWrite(c.seen.Some?, n));
    }
  }

  lemma {:induction false} NothingHeld<V>(rewinds: set<Marker>, xs: seq<Keyed>, w: Keyed -> Option<V>)
    requires Writers(rewinds, xs, w) == {}
    ensures Holds(None, rewinds, xs, w)
  {
  }

  lemma {:induction false} NextWriters<V>(rewinds: set<Marker>, xs: seq<Keyed>, w: Keyed -> Option<V>)
    requires xs != []
    ensures var m := |xs| - 1;
            Writers(rewinds, xs, w) == Writers(rewinds, xs[..m], w) + if Visible(rewinds, xs[m]) && w(xs[m]).Some? then {m} else {}
  {
    assert forall j: nat :: j < |xs| - 1 ==> xs[..|xs| - 1][j] == xs[j];
  }

  /** A metric's last value is right if and only if the right one is not overtaken. */
  lemma {:induction false} MergedLatest(rm: set<Marker>, rr: set<Marker>, before: seq<Arrival>, more: seq<Arrival>, n: Name)
    requires SameHidden(rm, rr, before, more)
    ensures var merged, right := CellAt(AfterMerged(rm, before, more).cells, n).latest, CellAt(Right(rr, before, more).cells, n).latest;
            var w := LastWrite(IsLogged(rr, KeyedAll(before + more), n), n);
            RightHeld(merged, right, before)
            <==> (right.Some? ==> !Overtaken(before, Writers(rr, KeyedAll(before + more), w), right.value.key))
  {
    FoldedRestarted(rm, before, more);
    LatestHeld(rm, Restarted(before, more), n);
    LatestHeld(rr, KeyedAll(before + more), n);
    SameWriters(rm, rr, before, more, MetricWrite(n));
    var merged, right := CellAt(AfterMerged(rm, before, more).cells, n).latest, CellAt(Right(rr, before, more).cells, n).latest;
    HeldRight(merged, right, rm, rr, before, more, LastWrite(IsLogged(rr, KeyedAll(before + more), n), n));
  }

  // The earliest: the create note, and a metric's first value.

  /** Of the entries `those`, `i` has the least key, and is the first of any equal ones. */
  ghost predicate WinsFirst(xs: seq<Keyed>, those: set<nat>, i: nat) {
    && i in those && i < |xs|
    && (forall j: nat :: j in those && j < |xs| ==> YieldsFirst(xs, j, i))
  }

  predicate YieldsFirst(xs: seq<Keyed>, j: nat, i: nat)
    requires i < |xs| && j < |xs|
  {
    !Before(xs[j].key, xs[i].key) && (j < i ==> Before(xs[i].key, xs[j].key))
  }

  /** The field holds what the first write wrote. */
  ghost predicate HoldsFirst<V>(held: Option<Stamped<V>>, rewinds: set<Marker>, xs: seq<Keyed>, w: Keyed -> Option<V>) {
    if held.None? then Writers(rewinds, xs, w) == {}
    else exists i: nat :: HoldsFirstAt(held.value, xs, Writers(rewinds, xs, w), w, i)
  }

  ghost predicate HoldsFirstAt<V>(held: Stamped<V>, xs: seq<Keyed>, those: set<nat>, w: Keyed -> Option<V>, i: nat) {
    WinsFirst(xs, those, i) && w(xs[i]) == Some(held.value) && held.key == xs[i].key
  }

  lemma {:induction false} HoldsFirstStep<V>(held: Option<Stamped<V>>, rewinds: set<Marker>, xs: seq<Keyed>,
                                             w: Keyed -> Option<V>)
    requires xs != [] && HoldsFirst(held, rewinds, xs[..|xs| - 1], w)
    ensures var x := xs[|xs| - 1];
            HoldsFirst(if Visible(rewinds, x) && w(x).Some? then Least(held, w(x).value, x.key) else held, rewinds, xs, w)
  {
    var m := |xs| - 1;
    var before, x := xs[..m], xs[m];
    var was, those := Writers(rewinds, before, w), Writers(rewinds, xs, w);
    NextWriters(rewinds, xs, w);
    assert forall j: nat :: j < m ==> before[j] == xs[j];
    if held.Some? {
      var i: nat :| HoldsFirstAt(held.value, before, was, w, i);
      assert forall j: nat :: j in was && j < m ==> YieldsFirst(before, j, i);
      if Visible(rewinds, x) && w(x).Some? && Before(x.key, held.value.key) {
        assert HoldsFirstAt(Stamped(w(x).value, x.key), xs, those, w, m);
      } else {
        assert HoldsFirstAt(held.value, xs, those, w, i);
      }
    } else if Visible(rewinds, x) && w(x).Some? {
      assert HoldsFirstAt(Stamped(w(x).value, x.key), xs, those, w, m);
    }
  }

  /** Of the writes `those`, one appended since was given an earlier place than the write of
      key `k`, folded before, of its timestamp and writer. */
  ghost predicate Undercut(before: seq<Arrival>, more: seq<Arrival>, those: set<nat>, k: Key) {
    && k.position < |LogOf(before, k.writer)|
    && exists j: nat :: j in those && Undercuts(before, more, j, k)
  }

  predicate Undercuts(before: seq<Arrival>, more: seq<Arrival>, j: nat, k: Key) {
    && |before| <= j < |Restarted(before, more)| && SameKey(Restarted(before, more)[j].key, k)
    && Restarted(before, more)[j].key.position < k.position
  }

  /** A write comes after the right first one at the keys given too, unless it undercuts it. */
  lemma {:induction false} YieldsFirstStill(before: seq<Arrival>, more: seq<Arrival>, j: nat, r: nat)
    requires j < |Restarted(before, more)| && r < |Restarted(before, more)|
    requires |KeyedAll(before + more)| == |Restarted(before, more)| && YieldsFirst(KeyedAll(before + more), j, r)
    ensures YieldsFirst(Restarted(before, more), j, r)
            <==> !(r < |before| && Undercuts(before, more, j, KeyedAll(before + more)[r].key))
  {
    SameEntry(before, more, j);
    SameEntry(before, more, r);
    hide KeyedAll, Restarted, LogOf;
  }

  lemma {:induction false} WinsFirstStill(before: seq<Arrival>, more: seq<Arrival>, those: set<nat>, r: nat)
    requires |KeyedAll(before + more)| == |Restarted(before, more)| && WinsFirst(KeyedAll(before + more), those, r)
    ensures WinsFirst(Restarted(before, more), those, r) <==> !Undercut(before, more, those, KeyedAll(before + more)[r].key)
  {
    hide Restarted, KeyedAll, LogOf, Undercuts, YieldsFirst;
    var xs, ys := Restarted(before, more), KeyedAll(before + more);
    SameEntry(before, more, r);
    forall j: nat | j in those && j < |xs|
      ensures YieldsFirst(xs, j, r) <==> !(r < |before| && Undercuts(before, more, j, ys[r].key))
    {
      assert YieldsFirst(ys, j, r);
      YieldsFirstStill(before, more, j, r);
    }
    if Undercut(before, more, those, ys[r].key) {
      var j: nat :| j in those && Undercuts(before, more, j, ys[r].key);
      UndercutIn(before, more, j, ys[r].key);
    }
  }

  lemma {:induction false} UndercutIn(before: seq<Arrival>, more: seq<Arrival>, j: nat, k: Key)
    requires Undercuts(before, more, j, k)
    ensures j < |Restarted(before, more)| && Before(Restarted(before, more)[j].key, k)
  {
  }

  lemma {:induction false} OneFirst(xs: seq<Keyed>, those: set<nat>, i: nat, r: nat)
    requires WinsFirst(xs, those, i) && WinsFirst(xs, those, r)
    ensures i == r
  {
    assert YieldsFirst(xs, r, i) && YieldsFirst(xs, i, r);
  }

  /** An earliest field is right after a merged refold if and only if its right write is not
      undercut. */
  lemma {:induction false} FirstRight<V>(merged: Option<Stamped<V>>, right: Option<Stamped<V>>, rm: set<Marker>, rr: set<Marker>,
                                         before: seq<Arrival>, more: seq<Arrival>, w: Keyed -> Option<V>)
    requires SameHidden(rm, rr, before, more) && OfEntry(w)
    requires HoldsFirst(merged, rm, Restarted(before, more), w) && HoldsFirst(right, rr, KeyedAll(before + more), w)
    ensures RightHeld(merged, right, before)
            <==> (right.Some? ==> !Undercut(before, more, Writers(rr, KeyedAll(before + more), w), right.value.key))
  {
    hide KeyedAll, LogOf, Restarted, Writers, Given, Undercut, WinsFirst;
    SameWriters(rm, rr, before, more, w);
    var xs, ys, those := Restarted(before, more), KeyedAll(before + more), Writers(rr, KeyedAll(before + more), w);
    if right.None? {
      forall i ensures !WinsFirst(xs, those, i) { NoFirst(xs, those, i); }
    } else {
      var r: nat :| HoldsFirstAt(right.value, ys, those, w, r);
      FirstIn(ys, those, r);
      var i: nat :| HoldsFirstAt(merged.value, xs, those, w, i);
      FirstIn(xs, those, i);
      WinsFirstStill(before, more, those, r);
      SameEntry(before, more, r);
      if WinsFirst(xs, those, r) {
        OneFirst(xs, those, i, r);
      } else {
        UndercutDiffers(before, more, those, i, r);
      }
    }
  }

  lemma {:induction false} UndercutDiffers(before: seq<Arrival>, more: seq<Arrival>, those: set<nat>, i: nat, r: nat)
    requires |KeyedAll(before + more)| == |Restarted(before, more)| && r < |Restarted(before, more)|
    requires WinsFirst(Restarted(before, more), those, i) && Undercut(before, more, those, KeyedAll(before + more)[r].key)
    ensures Restarted(before, more)[i].key != Restarted(before, more)[r].key
  {
    hide KeyedAll, LogOf;
    var xs, k := Restarted(before, more), KeyedAll(before + more)[r].key;
    SameEntry(before, more, r);
    var j: nat :| j in those && Undercuts(before, more, j, k);
    UndercutIn(before, more, j, k);
    assert YieldsFirst(xs, j, i);
  }

  lemma {:induction false} FirstIn(xs: seq<Keyed>, those: set<nat>, i: nat)
    requires WinsFirst(xs, those, i)
    ensures i < |xs| && i in those && those != {}
  {
  }

  lemma {:induction false} NoFirst(xs: seq<Keyed>, those: set<nat>, i: nat)
    requires those == {}
    ensures !WinsFirst(xs, those, i)
  {
  }

  function NoteWrite(): Keyed -> Option<Val> {
    (x: Keyed) => if x.entry.kind.Create? then Some(x.entry.kind.note) else None
  }

  lemma {:induction false} CreateHeld(rewinds: set<Marker>, xs: seq<Keyed>)
    requires Markers(xs) <= rewinds
    ensures HoldsFirst(AppliedAll(NewFold(rewinds), xs).create, rewinds, xs, NoteWrite())
  {
    if xs != [] {
      LastStep(rewinds, xs);
      CreateHeld(rewinds, xs[..|xs| - 1]);
      HoldsFirstStep(AppliedAll(NewFold(rewinds), xs[..|xs| - 1]).create, rewinds, xs, NoteWrite());
    }
  }

  /** The create note is right if and only if the right one is not undercut. */
  lemma {:induction false} MergedCreate(rm: set<Marker>, rr: set<Marker>, before: seq<Arrival>, more: seq<Arrival>)
    requires SameHidden(rm, rr, before, more)
    ensures var merged, right := AfterMerged(rm, before, more).create, Right(rr, before, more).create;
            RightHeld(merged, right, before)
            <==> (right.Some? ==> !Undercut(before, more, Writers(rr, KeyedAll(before + more), NoteWrite()), right.value.key))
  {
    FoldedRestarted(rm, before, more);
    CreateHeld(rm, Restarted(before, more));
    CreateHeld(rr, KeyedAll(before + more));
    FirstRight(AfterMerged(rm, before, more).create, Right(rr, before, more).create, rm, rr, before, more, NoteWrite());
  }

  /** A cell's earliest logged value: the only one, or what it keeps from the second on. */
  function Earliest(c: Cell): Option<Stamped<Num>> {
    if c.seen.None? then None
    else if c.seen.value.Many? then c.first
    else if c.latest.None? then None else Some(Stamped(c.seen.value.only, c.latest.value.key))
  }

  ghost predicate OnceOk(c: Cell) { c.seen.Some? && c.seen.value.Once? ==> c.latest.Some? && c.first.None? }

  lemma {:induction false} EarliestHeld(rewinds: set<Marker>, xs: seq<Keyed>, n: Name)
    requires Markers(xs) <= rewinds
    ensures var c := CellAt(AppliedAll(NewFold(rewinds), xs).cells, n);
            (c.seen.None? ==> c.first.None?) && OnceOk(c) && HoldsFirst(Earliest(c), rewinds, xs, MetricWrite(n))
  {
    if xs != [] {
      var before, x := xs[..|xs| - 1], xs[|xs| - 1];
      LastStep(rewinds, xs);
      EarliestHeld(rewinds, before, n);
      var f := AppliedAll(NewFold(rewinds), before);
      CellsAfter(f, x.entry.kind, x.key, n);
      HoldsFirstStep(Earliest(CellAt(f.cells, n)), rewinds, xs, MetricWrite(n));
    }
  }

  /** A metric's first value is right if and only if the right one is not undercut. */
  lemma {:induction false} MergedFirst(rm: set<Marker>, rr: set<Marker>, before: seq<Arrival>, more: seq<Arrival>, n: Name)
    requires SameHidden(rm, rr, before, more)
    ensures var merged, right := CellAt(AfterMerged(rm, before, more).cells, n), CellAt(Right(rr, before, more).cells, n);
            RightHeld(Earliest(merged), Earliest(right), before)
            <==> (Earliest(right).Some? ==>
                    !Undercut(before, more, Writers(rr, KeyedAll(before + more), MetricWrite(n)), Earliest(right).value.key))
  {
    FoldedRestarted(rm, before, more);
    EarliestHeld(rm, Restarted(before, more), n);
    EarliestHeld(rr, KeyedAll(before + more), n);
    var merged, right := CellAt(AfterMerged(rm, before, more).cells, n), CellAt(Right(rr, before, more).cells, n);
    FirstRight(Earliest(merged), Earliest(right), rm, rr, before, more, MetricWrite(n));
  }

  /** Bounds, count and sum do not depend on the keys. */
  lemma {:induction false} SameSeen(rm: set<Marker>, rr: set<Marker>, xs: seq<Keyed>, ys: seq<Keyed>, n: Name)
    requires |xs| == |ys| && Markers(xs) <= rm && Markers(ys) <= rr
    requires forall i :: 0 <= i < |xs| ==> xs[i].entry == ys[i].entry && (Visible(rm, xs[i]) <==> Visible(rr, ys[i]))
    ensures CellAt(AppliedAll(NewFold(rm), xs).cells, n).seen == CellAt(AppliedAll(NewFold(rr), ys).cells, n).seen
  {
    if xs != [] {
      var m := |xs| - 1;
      LastStep(rm, xs);
      LastStep(rr, ys);
      SameSeen(rm, rr, xs[..m], ys[..m], n);
      CellsAfter(AppliedAll(NewFold(rm), xs[..m]), xs[m].entry.kind, xs[m].key, n);
      CellsAfter(AppliedAll(NewFold(rr), ys[..m]), ys[m].entry.kind, ys[m].key, n);
    }
  }

  /** A metric's bounds, count and sum are always right. */
  lemma {:induction false} MergedSeen(rm: set<Marker>, rr: set<Marker>, before: seq<Arrival>, more: seq<Arrival>, n: Name)
    requires SameHidden(rm, rr, before, more)
    ensures CellAt(AfterMerged(rm, before, more).cells, n).seen == CellAt(Right(rr, before, more).cells, n).seen
  {
    FoldedRestarted(rm, before, more);
    var xs, ys := Restarted(before, more), KeyedAll(before + more);
    forall i: nat | i < |xs| ensures xs[i].entry == ys[i].entry { SameEntry(before, more, i); }
    SameSeen(rm, rr, xs, ys, n);
  }

  // ---------------------------------------------------- what rewinds hide either way

  predicate CanHide(m: Keyed, x: Keyed) {
    IsMarker(m) && !x.entry.kind.Rewind? && x.entry.step.Some? && MarkerOf(m).step < x.entry.step.value
  }

  /** Entry `j` is a rewind that hides entry `i`. */
  predicate Hides(xs: seq<Keyed>, j: nat, i: nat)
    requires j < |xs| && i < |xs|
  {
    CanHide(xs[j], xs[i]) && Before(xs[i].key, xs[j].key)
  }

  ghost predicate SomeHides(xs: seq<Keyed>, i: nat)
    requires i < |xs|
  {
    exists j :: 0 <= j < |xs| && Hides(xs, j, i)
  }

  lemma {:induction false} VisibleWhen(xs: seq<Keyed>, i: nat)
    requires i < |xs|
    ensures Visible(Markers(xs), xs[i]) <==> !xs[i].entry.kind.Rewind? && !SomeHides(xs, i)
  {
    var x := xs[i];
    if SomeHides(xs, i) {
      var j :| 0 <= j < |xs| && Hides(xs, j, i);
      assert MarkerOf(xs[j]) in Markers(xs);
    }
    if IsRewound(Markers(xs), x) {
      var m :| m in Markers(xs) && m.step < x.entry.step.value && Before(x.key, m.key);
      var j :| 0 <= j < |xs| && IsMarker(xs[j]) && MarkerOf(xs[j]) == m;
      assert Hides(xs, j, i);
    }
  }

  /** The entries are one from before and one appended since, of one timestamp and writer. */
  predicate Across(before: seq<Arrival>, more: seq<Arrival>, j: nat, i: nat)
    requires j < |Restarted(before, more)| && i < |Restarted(before, more)|
  {
    (i < |before| <==> j >= |before|) && SameKey(Restarted(before, more)[i].key, Restarted(before, more)[j].key)
  }

  lemma {:induction false} HidesEitherWay(before: seq<Arrival>, more: seq<Arrival>, j: nat, i: nat)
    requires j < |Restarted(before, more)| && i < |Restarted(before, more)|
    ensures |KeyedAll(before + more)| == |Restarted(before, more)|
    ensures !Across(before, more, j, i) ==> (Hides(Restarted(before, more), j, i) <==> Hides(KeyedAll(before + more), j, i))
    ensures Across(before, more, j, i) ==>
              (Hides(KeyedAll(before + more), j, i) <==> i < |before| && CanHide(Restarted(before, more)[j], Restarted(before, more)[i]))
  {
    SameEntry(before, more, i);
    SameEntry(before, more, j);
    hide KeyedAll, LogOf, Restarted;
  }

  /** An entry from before that only rewinds appended since hide, each of its timestamp and
      writer and given no later place. */
  ghost predicate Freed(before: seq<Arrival>, more: seq<Arrival>, i: nat)
    requires i < |Restarted(before, more)| == |KeyedAll(before + more)|
  {
    && i < |before| && SomeHides(KeyedAll(before + more), i)
    && forall j :: 0 <= j < |Restarted(before, more)| && Hides(KeyedAll(before + more), j, i) ==>
         Across(before, more, j, i) && Restarted(before, more)[j].key.position <= Restarted(before, more)[i].key.position
  }

  /** An appended entry that no rewind hides, with a rewind from before of its timestamp and
      writer that has a later place than it was given. */
  ghost predicate Caught(before: seq<Arrival>, more: seq<Arrival>, i: nat)
    requires i < |Restarted(before, more)| == |KeyedAll(before + more)|
  {
    && i >= |before| && !SomeHides(KeyedAll(before + more), i)
    && exists j :: 0 <= j < |Restarted(before, more)| && CatchesAt(before, more, j, i)
  }

  predicate CatchesAt(before: seq<Arrival>, more: seq<Arrival>, j: nat, i: nat)
    requires j < |Restarted(before, more)| && i < |Restarted(before, more)|
  {
    var xs := Restarted(before, more);
    Across(before, more, j, i) && CanHide(xs[j], xs[i]) && xs[i].key.position < xs[j].key.position
  }

  /** One entry is hidden either way unless it is freed or caught. */
  lemma {:induction false} HiddenUnless(before: seq<Arrival>, more: seq<Arrival>, i: nat)
    requires i < |Restarted(before, more)| == |KeyedAll(before + more)|
    ensures (SomeHides(Restarted(before, more), i) <==> SomeHides(KeyedAll(before + more), i))
            <==> !Freed(before, more, i) && !Caught(before, more, i)
  {
    hide KeyedAll, LogOf, Restarted, CanHide;
    var xs, ys := Restarted(before, more), KeyedAll(before + more);
    forall j: nat | j < |xs|
      ensures !Across(before, more, j, i) ==> (Hides(xs, j, i) <==> Hides(ys, j, i))
      ensures Across(before, more, j, i) ==>
                && (Hides(ys, j, i) <==> i < |before| && CanHide(xs[j], xs[i]))
                && (Hides(xs, j, i) <==> CanHide(xs[j], xs[i]) && xs[i].key.position < xs[j].key.position)
    {
      HidesEitherWay(before, more, j, i);
    }
    if SomeHides(xs, i) && !SomeHides(ys, i) {
      var j :| 0 <= j < |xs| && Hides(xs, j, i);
      assert CatchesAt(before, more, j, i);
    }
  }

  /** Rewinds hide the same entries either way if and only if none is freed and none caught. */
  lemma {:induction false} SameHiddenWhen(before: seq<Arrival>, more: seq<Arrival>)
    ensures |KeyedAll(before + more)| == |Restarted(before, more)|
    ensures SameHidden(Markers(Restarted(before, more)), Markers(KeyedAll(before + more)), before, more)
            <==> forall i :: 0 <= i < |Restarted(before, more)| ==> !Freed(before, more, i) && !Caught(before, more, i)
  {
    MorePlaces(before, more);
    hide KeyedAll, LogOf, Restarted, Freed, Caught, SomeHides, IsRewound, Markers;
    var xs, ys := Restarted(before, more), KeyedAll(before + more);
    forall i: nat | i < |xs|
      ensures (Visible(Markers(xs), xs[i]) <==> Visible(Markers(ys), ys[i])) <==> !Freed(before, more, i) && !Caught(before, more, i)
    {
      SameEntry(before, more, i);
      VisibleWhen(xs, i);
      VisibleWhen(ys, i);
      HiddenUnless(before, more, i);
      if xs[i].entry.kind.Rewind? { NeverHidden(before, more, i); }
    }
  }

  lemma {:induction false} NeverHidden(before: seq<Arrival>, more: seq<Arrival>, i: nat)
    requires i < |Restarted(before, more)| == |KeyedAll(before + more)| && Restarted(before, more)[i].entry.kind.Rewind?
    ensures !Freed(before, more, i) && !Caught(before, more, i)
  {
    SameEntry(before, more, i);
    hide KeyedAll, LogOf, Restarted;
  }

  ghost predicate NoneAcross(before: seq<Arrival>, more: seq<Arrival>) {
    var xs := Restarted(before, more);
    forall i, j :: 0 <= i < |xs| && 0 <= j < |xs| && CanHide(xs[j], xs[i]) ==> !Across(before, more, j, i)
  }

  /** So they do where no rewind and entry, one of them appended since, share timestamp and
      writer. */
  lemma {:induction false} ApartSameHidden(before: seq<Arrival>, more: seq<Arrival>)
    requires NoneAcross(before, more)
    ensures SameHidden(Markers(Restarted(before, more)), Markers(KeyedAll(before + more)), before, more)
  {
    SameHiddenWhen(before, more);
    hide KeyedAll, LogOf, Restarted, Across;
    forall i | 0 <= i < |Restarted(before, more)| ensures !Freed(before, more, i) && !Caught(before, more, i) {
      SameEntry(before, more, i);
      if SomeHides(KeyedAll(before + more), i) {
        var j :| 0 <= j < |KeyedAll(before + more)| && Hides(KeyedAll(before + more), j, i);
        SameEntry(before, more, j);
        assert CanHide(Restarted(before, more)[j], Restarted(before, more)[i]);
      }
    }
  }

  /** Without rewinds nothing is hidden either way. */
  lemma {:induction false} NoRewindsSameHidden(before: seq<Arrival>, more: seq<Arrival>)
    requires forall i :: 0 <= i < |before + more| ==> !(before + more)[i].entry.kind.Rewind?
    ensures SameHidden({}, {}, before, more)
  {
    MorePlaces(before, more);
    KeyedSize(before + more);
    forall i | 0 <= i < |Restarted(before, more)|
      ensures !Restarted(before, more)[i].entry.kind.Rewind? && !KeyedAll(before + more)[i].entry.kind.Rewind?
    {
      SameEntry(before, more, i);
      assert IsKeyed((before + more)[i], KeyedAll(before + more)[i]);
    }
  }

  // ------------------------------------------------------- read past the listed size

  /** The files as the listing had them, as they were read, and as they are at the next
      update: each only grew. */
  ghost predicate GrewOn(listed: seq<File>, read: seq<File>, now: seq<File>) {
    && |listed| == |read| == |now|
    && forall i :: 0 <= i < |now| ==>
         && listed[i].name == read[i].name == now[i].name
         && listed[i].entries <= read[i].entries <= now[i].entries
  }

  function Past(listed: File, now: File): seq<Logged> {
    if |listed.entries| <= |now.entries| then now.entries[|listed.entries|..] else []
  }

  /** What the next update folds of a writer: past the sizes listed, not past what was read. */
  function PastListed(listed: seq<File>, now: seq<File>, w: int): seq<Arrival>
    requires |listed| == |now|
  {
    if now == [] then []
    else
      var m := |now| - 1;
      PastListed(listed[..m], now[..m], w) + Mine(now[m].name, w, Past(listed[m], now[m]))
  }

  /** One file's part. */
  lemma {:induction false} OneFile(listed: seq<File>, read: seq<File>, now: seq<File>, w: int)
    requires GrewOn(listed, read, now) && now != []
    ensures var m := |now| - 1;
            && GrewOn(listed[..m], read[..m], now[..m])
            && LogOf(ArrivalsOf(read), w) == LogOf(ArrivalsOf(read[..m]), w) + Mine(now[m].name, w, read[m].entries)
            && LogOf(ArrivalsOf(now), w) == LogOf(ArrivalsOf(now[..m]), w) + Mine(now[m].name, w, now[m].entries)
            && PastListed(listed, now, w) == PastListed(listed[..m], now[..m], w) + Mine(now[m].name, w, Past(listed[m], now[m]))
  {
    hide LogOf, Mine;
    var m := |now| - 1;
    NowNext(read, m, w);
    NowNext(now, m, w);
    assert read[..m + 1] == read && now[..m + 1] == now;
  }

  lemma {:induction false} MineSize(name: FileName, w: int, entries: seq<Logged>)
    ensures |Mine(name, w, entries)| == if name.writer == w then |entries| else 0
  {
    ArrivalsLength(w, entries);
  }

  lemma {:induction false} PartSizes(listed: File, read: File, now: File, w: int)
    requires listed.entries <= read.entries <= now.entries
    ensures var a, b, c := Mine(now.name, w, read.entries), Mine(now.name, w, Past(listed, now)), Mine(now.name, w, now.entries);
            |a| + |b| >= |c| && (|a| + |b| == |c| <==> now.name.writer == w ==> read.entries == listed.entries)
  {
    MineSize(now.name, w, read.entries);
    MineSize(now.name, w, Past(listed, now));
    MineSize(now.name, w, now.entries);
  }

  /** The writer's files held just what was listed when they were read. */
  ghost predicate AsListed(listed: seq<File>, read: seq<File>, w: int)
    requires |listed| == |read|
  {
    forall i :: 0 <= i < |read| && read[i].name.writer == w ==> read[i].entries == listed[i].entries
  }

  lemma {:induction false} AsListedNext(listed: seq<File>, read: seq<File>, w: int)
    requires |listed| == |read| != 0
    ensures var m := |read| - 1;
            AsListed(listed, read, w)
            <==> AsListed(listed[..m], read[..m], w) && (read[m].name.writer == w ==> read[m].entries == listed[m].entries)
  {
  }

  lemma {:induction false} FoldedSize(listed: seq<File>, read: seq<File>, now: seq<File>, w: int)
    requires GrewOn(listed, read, now)
    ensures |LogOf(ArrivalsOf(read), w)| + |PastListed(listed, now, w)| >= |LogOf(ArrivalsOf(now), w)|
    ensures |LogOf(ArrivalsOf(read), w)| + |PastListed(listed, now, w)| == |LogOf(ArrivalsOf(now), w)|
            <==> AsListed(listed, read, w)
  {
    if now == [] {
      assert LogOf(ArrivalsOf([]), w) == [];
    } else {
      hide LogOf, Mine, ArrivalsOf, PastListed, Past, AsListed;
      var m := |now| - 1;
      OneFile(listed, read, now, w);
      AsListedNext(listed, read, w);
      FoldedSize(listed[..m], read[..m], now[..m], w);
      PartSizes(listed[m], read[m], now[m], w);
    }
  }

  /** What was read past the listed sizes is folded again at the next update: a writer's
      entries are folded once each if and only if its files were read as listed. */
  lemma {:induction false} ReadTwice(listed: seq<File>, read: seq<File>, now: seq<File>, w: int)
    requires GrewOn(listed, read, now)
    ensures multiset(LogOf(ArrivalsOf(read), w)) + multiset(PastListed(listed, now, w)) == multiset(LogOf(ArrivalsOf(now), w))
            <==> AsListed(listed, read, w)
  {
    FoldedSize(listed, read, now, w);
    hide LogOf, ArrivalsOf, PastListed;
    var a, b, c := LogOf(ArrivalsOf(read), w), PastListed(listed, now, w), LogOf(ArrivalsOf(now), w);
    if multiset(a) + multiset(b) == multiset(c) {
      assert |multiset(a) + multiset(b)| == |a| + |b| && |multiset(c)| == |c|;
    }
    if AsListed(listed, read, w) {
      OnceEach(listed, read, now, w);
    }
  }

  lemma {:induction false} PartParts(listed: File, read: File, now: File, w: int)
    requires listed.entries <= now.entries && (now.name.writer == w ==> read.entries == listed.entries)
    ensures Mine(now.name, w, read.entries) + Mine(now.name, w, Past(listed, now)) == Mine(now.name, w, now.entries)
  {
    assert now.entries == listed.entries + Past(listed, now);
    ArrivalsJoined(w, listed.entries, Past(listed, now));
  }

  lemma {:induction false} OnceEach(listed: seq<File>, read: seq<File>, now: seq<File>, w: int)
    requires GrewOn(listed, read, now)
    requires AsListed(listed, read, w)
    ensures multiset(LogOf(ArrivalsOf(read), w)) + multiset(PastListed(listed, now, w)) == multiset(LogOf(ArrivalsOf(now), w))
  {
    if now == [] {
      assert LogOf(ArrivalsOf([]), w) == [];
    } else {
      hide LogOf, Mine, ArrivalsOf, PastListed, Past, AsListed;
      var m := |now| - 1;
      OneFile(listed, read, now, w);
      AsListedNext(listed, read, w);
      OnceEach(listed[..m], read[..m], now[..m], w);
      PartParts(listed[m], read[m], now[m], w);
      TwoSums(LogOf(ArrivalsOf(read[..m]), w), PastListed(listed[..m], now[..m], w), LogOf(ArrivalsOf(now[..m]), w),
              Mine(now[m].name, w, read[m].entries), Mine(now[m].name, w, Past(listed[m], now[m])));
    }
  }

  lemma {:induction false} TwoSums<T>(a: seq<T>, b: seq<T>, c: seq<T>, x: seq<T>, y: seq<T>)
    requires multiset(a) + multiset(b) == multiset(c)
    ensures multiset(a + x) + multiset(b + y) == multiset(c + (x + y))
  {
  }

  function TagEntry(writer: int, ts: int, value: Val): Arrival {
    Arrival(writer, ts, Entry(Tags(map["a" := value], {}), None))
  }

  lemma {:induction false} TaggedAs(f: Fold, writer: int, value: Val, k: Key)
    ensures var g := Applied(f, Keyed(TagEntry(writer, k.ts, value).entry, k));
            "a" in g.tags && g.tags["a"] == Latest(At(f.tags, "a"), Some(value), k).value
  {
  }

  lemma {:induction false} KeyedTags(writer: int, ts: int, x: Val, y: Val, z: Val)
    ensures var a, b, c := TagEntry(writer, ts, x), TagEntry(writer, ts, y), TagEntry(writer, ts, z);
            && KeyedAll([c]) == [] + [Keyed(c.entry, Key(ts, writer, 0))]
            && KeyedAll([a, b]) == [] + [Keyed(a.entry, Key(ts, writer, 0))] + [Keyed(b.entry, Key(ts, writer, 1))]
            && KeyedAll([a, b] + [c]) == KeyedAll([a, b]) + [Keyed(c.entry, Key(ts, writer, 2))]
  {
    var a, b, c := TagEntry(writer, ts, x), TagEntry(writer, ts, y), TagEntry(writer, ts, z);
    assert [] + [a] == [a] && [a] + [b] == [a, b] && [] + [c] == [c];
    KeyedLast([], a);
    KeyedLast([], c);
    KeyedLast([a], b);
    KeyedLast([a, b], c);
    assert [a][..0] == [] && [a, b][..1] == [a];
    assert LogOf([a], writer) == [a] && LogOf([a, b], writer) == [a, b];
  }

  /** Why `Record.UpdateLogs` reads files itself: after a merged refold an appended entry
      starts over at its writer's first place, and loses to an entry of the same timestamp
      folded before. */
  lemma {:induction false} MergedForgetsPlaces(writer: int, ts: int)
    ensures var before := [TagEntry(writer, ts, "0"), TagEntry(writer, ts, "1")];
            var more := [TagEntry(writer, ts, "2")];
            var merged, right := AfterMerged({}, before, more), AppliedAll(NewFold({}), KeyedAll(before + more));
            && "a" in merged.tags && merged.tags["a"].value == Some("1")
            && "a" in right.tags && right.tags["a"].value == Some("2")
  {
    var k0, k1, k2 := Key(ts, writer, 0), Key(ts, writer, 1), Key(ts, writer, 2);
    var x0, x1 := Keyed(TagEntry(writer, ts, "0").entry, k0), Keyed(TagEntry(writer, ts, "1").entry, k1);
    KeyedTags(writer, ts, "0", "1", "2");
    var f0 := Applied(NewFold({}), x0);
    var f1 := Applied(f0, x1);
    LastApplied(NewFold({}), [], x0);
    LastApplied(NewFold({}), [] + [x0], x1);
    LastApplied(NewFold({}), [] + [x0] + [x1], Keyed(TagEntry(writer, ts, "2").entry, k2));
    LastApplied(f1, [], Keyed(TagEntry(writer, ts, "2").entry, k0));
    TaggedAs(NewFold({}), writer, "0", k0);
    TaggedAs(f0, writer, "1", k1);
    TaggedAs(f1, writer, "2", k2);
    TaggedAs(f1, writer, "2", k0);
  }
}

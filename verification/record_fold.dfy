/**
 What a record's fold is made of: log entries and points of metric streams, in the order
 they were folded (`Shown`).

 A point folds at its timestamp, writer and a position that depends on the blocks it came
 in, so two folds of the same points may hold other positions. `SameShown`: folds of the
 same log entries and the same points, in any order and at any positions, are the same but
 for those positions (`SameFold`), if no rewind or entry ties with a point (`Apart`).

 `HeaderFoldsPoints`, `SumsFoldPoints`: a block's header, and a writer's sums, fold to just
 what their points do one by one.
 */
module RecordFold {
  import opened Fold
  import opened FoldSums

  // ---------------------------------------------------------------- names and entries

  const TWIN_SUFFIX := "@nostep"
  const INHERITED_SUFFIX := "@inherited"

  function Less(name: string, suffix: string): string {
    if |name| >= |suffix| && name[|name| - |suffix|..] == suffix then name[..|name| - |suffix|] else name
  }

  /** The metric a stream key records: the key less its twin suffixes. */
  function BaseKey(name: Name): Name { Less(Less(name, INHERITED_SUFFIX), TWIN_SUFFIX) }

  predicate EndsWith(name: string, suffix: string) {
    |name| >= |suffix| && name[|name| - |suffix|..] == suffix
  }

  /** The stream keys of a metric: its name, its step-less twin's, and what a fork copied of both. */
  lemma BaseKeyReadBack(name: Name)
    requires !EndsWith(name, TWIN_SUFFIX) && !EndsWith(name, INHERITED_SUFFIX)
    ensures BaseKey(name) == name && BaseKey(name + TWIN_SUFFIX) == name
    ensures BaseKey(name + INHERITED_SUFFIX) == name && BaseKey(name + TWIN_SUFFIX + INHERITED_SUFFIX) == name
  {
    var twin := name + TWIN_SUFFIX;
    assert twin[|twin| - 1] == 'p' && INHERITED_SUFFIX[|INHERITED_SUFFIX| - 1] == 'd';
    if |twin| >= |INHERITED_SUFFIX| {
      assert twin[|twin| - |INHERITED_SUFFIX|..][|INHERITED_SUFFIX| - 1] == 'p';
    }
    SuffixTaken(name, TWIN_SUFFIX);
    SuffixTaken(name, INHERITED_SUFFIX);
    SuffixTaken(twin, INHERITED_SUFFIX);
  }

  lemma SuffixTaken(name: string, suffix: string)
    ensures Less(name + suffix, suffix) == name
  {
    assert (name + suffix)[|name|..] == suffix;
  }

  /** What was folded: an entry of a log, or a point of a writer's stream under a stream key. */
  datatype Shown = Logs(x: Keyed) | Streams(key: Name, writer: int, p: Point, place: nat)

  function StepOf(p: Point): Option<real> { if p.step.Some? then Some(p.step.value as real) else None }

  function PointEntry(key: Name, writer: int, p: Point, place: nat): Keyed {
    Keyed(Entry(Metrics(map[BaseKey(key) := p.value]), StepOf(p)), Key(Rank(p.us), writer, place))
  }

  function EntryOf(s: Shown): Keyed {
    match s
    case Logs(x) => x
    case Streams(key, writer, p, place) => PointEntry(key, writer, p, place)
  }

  function Entries(a: seq<Shown>): (xs: seq<Keyed>)
    ensures |xs| == |a|
  {
    seq(|a|, i requires 0 <= i < |a| => EntryOf(a[i]))
  }

  function LogPart(a: seq<Shown>): seq<Keyed> {
    if a == [] then []
    else
      var rest, s := LogPart(a[..|a| - 1]), a[|a| - 1];
      if s.Logs? then rest + [s.x] else rest
  }

  /** A writer's points folded under a stream key. */
  function PointsOf(a: seq<Shown>, writer: int, key: Name): seq<Point> {
    if a == [] then []
    else
      var rest, s := PointsOf(a[..|a| - 1], writer, key), a[|a| - 1];
      if s.Streams? && s.writer == writer && s.key == key then rest + [s.p] else rest
  }

  lemma EntriesLast(a: seq<Shown>)
    requires a != []
    ensures Entries(a) == Entries(a[..|a| - 1]) + [EntryOf(a[|a| - 1])]
    ensures Entries(a)[..|a| - 1] == Entries(a[..|a| - 1])
  {
  }

  lemma EntriesJoined(a: seq<Shown>, b: seq<Shown>)
    ensures Entries(a + b) == Entries(a) + Entries(b)
  {
  }

  lemma {:induction false} PartsJoined(a: seq<Shown>, b: seq<Shown>, writer: int, key: Name)
    ensures LogPart(a + b) == LogPart(a) + LogPart(b)
    ensures PointsOf(a + b, writer, key) == PointsOf(a, writer, key) + PointsOf(b, writer, key)
  {
    if b == [] {
      assert a + b == a;
    } else {
      var init, s := b[..|b| - 1], b[|b| - 1];
      PartsJoined(a, init, writer, key);
      assert (a + b)[..|a + b| - 1] == a + init && (a + b)[|a + b| - 1] == s;
      assert LogPart(a + b) == if s.Logs? then LogPart(a + init) + [s.x] else LogPart(a + init);
      assert PointsOf(a + b, writer, key)
             == PointsOf(a + init, writer, key) + if s.Streams? && s.writer == writer && s.key == key then [s.p] else [];
    }
  }

  /** Log entries and nothing else. */
  function FromLogs(xs: seq<Keyed>): (a: seq<Shown>)
    ensures |a| == |xs|
  {
    seq(|xs|, i requires 0 <= i < |xs| => Logs(xs[i]))
  }

  lemma {:induction false} FromLogsHold(xs: seq<Keyed>, writer: int, key: Name)
    ensures Entries(FromLogs(xs)) == xs && LogPart(FromLogs(xs)) == xs && PointsOf(FromLogs(xs), writer, key) == []
  {
    if xs != [] {
      FromLogsHold(xs[..|xs| - 1], writer, key);
      assert FromLogs(xs)[..|xs| - 1] == FromLogs(xs[..|xs| - 1]);
    }
  }

  ghost predicate PointsFree(a: seq<Shown>) { forall i :: 0 <= i < |a| ==> a[i].Logs? }

  lemma {:induction false} LogsOnly(a: seq<Shown>)
    requires PointsFree(a)
    ensures Entries(a) == LogPart(a)
  {
    if a != [] { LogsOnly(a[..|a| - 1]); }
  }

  // ------------------------------------------------------------ the same but for places

  predicate SameKey(a: Key, b: Key) { a.ts == b.ts && a.writer == b.writer }

  predicate SameStamp<V(==)>(a: Option<Stamped<V>>, b: Option<Stamped<V>>) {
    (a.None? <==> b.None?) && (a.Some? ==> a.value.value == b.value.value && SameKey(a.value.key, b.value.key))
  }

  predicate SameCell(a: Cell, b: Cell) {
    a.seen == b.seen && SameStamp(a.latest, b.latest) && SameStamp(a.first, b.first)
  }

  ghost predicate SameCells(f: Fold, g: Fold) {
    forall n :: SameCell(CellAt(f.cells, n), CellAt(g.cells, n))
  }

  predicate SameLast(a: Option<Key>, b: Option<Key>) {
    (a.None? <==> b.None?) && (a.Some? ==> SameKey(a.value, b.value))
  }

  /** The folds are the same but for the positions in the keys of metric values. */
  ghost predicate SameFold(f: Fold, g: Fold) {
    && f.params == g.params && f.tags == g.tags && f.slots == g.slots && f.features == g.features
    && f.create == g.create && f.rewinds == g.rewinds && f.stale == g.stale
    && SameCells(f, g) && SameLast(f.lastMetric, g.lastMetric)
  }

  predicate Touches(x: Keyed, n: Name) {
    n in MetricWrites(x.entry.kind) || n in Numbers(ParamWrites(x.entry.kind))
  }

  /** Item `i` is a point, and nothing else of its metric has its timestamp and writer. */
  ghost predicate Alone(a: seq<Shown>, i: nat, j: nat)
    requires i < |a| && j < |a|
  {
    a[i].Streams? && i != j && Touches(EntryOf(a[j]), BaseKey(a[i].key)) ==> !SameKey(EntryOf(a[i]).key, EntryOf(a[j]).key)
  }

  ghost predicate Untied(rewinds: set<Marker>, s: Shown) {
    s.Streams? ==> forall m :: m in rewinds ==> !SameKey(m.key, EntryOf(s).key)
  }

  /** No point ties with anything of its metric, nor with a rewind. */
  ghost predicate Apart(rewinds: set<Marker>, a: seq<Shown>) {
    && (forall i, j :: 0 <= i < |a| && 0 <= j < |a| ==> Alone(a, i, j))
    && (forall i :: 0 <= i < |a| ==> Untied(rewinds, a[i]))
  }

  // --------------------------------------------------------- one metric's own entries

  function NarrowKind(kind: Kind, n: Name): Kind
    requires n in MetricWrites(kind) || n in Numbers(ParamWrites(kind))
  {
    if n in MetricWrites(kind) then Metrics(map[n := MetricWrites(kind)[n]]) else Params(map[n := ParamWrites(kind)[n]])
  }

  /** The key an item folds at, a point's position left out. */
  function PlacelessKey(s: Shown): Key {
    if s.Logs? then s.x.key else Key(Rank(s.p.us), s.writer, 0)
  }

  /** What an item does to one metric. */
  function Narrow(s: Shown, n: Name): seq<Keyed> {
    var x := EntryOf(s);
    if Touches(x, n) then [Keyed(Entry(NarrowKind(x.entry.kind, n), x.entry.step), PlacelessKey(s))] else []
  }

  function Narrowed(a: seq<Shown>, n: Name): seq<Keyed> {
    if a == [] then [] else Narrowed(a[..|a| - 1], n) + Narrow(a[|a| - 1], n)
  }

  lemma {:induction false} NarrowedHoldsNoMarker(a: seq<Shown>, n: Name)
    ensures forall x :: x in Narrowed(a, n) ==> !IsMarker(x)
    ensures Markers(Narrowed(a, n)) == {}
  {
    if a != [] {
      NarrowedHoldsNoMarker(a[..|a| - 1], n);
    }
  }

  /** Keys of two items compare as their placeless ones. */
  lemma OrderKept(rewinds: set<Marker>, a: seq<Shown>, i: nat, j: nat, n: Name)
    requires Apart(rewinds, a) && i < |a| && j < |a| && Touches(EntryOf(a[i]), n) && Touches(EntryOf(a[j]), n)
    ensures Before(EntryOf(a[i]).key, EntryOf(a[j]).key) <==> Before(PlacelessKey(a[i]), PlacelessKey(a[j]))
  {
    assert Alone(a, i, j) && Alone(a, j, i);
  }

  /** A narrowed entry is visible when the whole one is. */
  lemma VisibleKept(rewinds: set<Marker>, a: seq<Shown>, i: nat, n: Name)
    requires Apart(rewinds, a) && i < |a| && Touches(EntryOf(a[i]), n)
    ensures Visible(rewinds, EntryOf(a[i])) <==> Visible(rewinds, Narrow(a[i], n)[0])
  {
    var x, y := EntryOf(a[i]), Narrow(a[i], n)[0];
    assert Untied(rewinds, a[i]);
    forall m | m in rewinds ensures Before(x.key, m.key) <==> Before(y.key, m.key) {
    }
  }

  /** Two stamps are of one item, at its key and at its placeless one. */
  ghost predicate Paired(x: Option<Stamped<Num>>, y: Option<Stamped<Num>>, a: seq<Shown>, n: Name) {
    && (x.None? <==> y.None?)
    && (x.Some? ==> x.value.value == y.value.value && exists i: nat :: OfItem(x.value.key, y.value.key, a, i, n))
  }

  ghost predicate OfItem(k: Key, l: Key, a: seq<Shown>, i: nat, n: Name) {
    i < |a| && Touches(EntryOf(a[i]), n) && k == EntryOf(a[i]).key && l == PlacelessKey(a[i])
  }

  ghost predicate CellsPaired(c: Cell, d: Cell, a: seq<Shown>, n: Name) {
    c.seen == d.seen && Paired(c.latest, d.latest, a, n) && Paired(c.first, d.first, a, n)
  }

  lemma StaysPaired(x: Option<Stamped<Num>>, y: Option<Stamped<Num>>, a: seq<Shown>, s: Shown, n: Name)
    requires Paired(x, y, a, n)
    ensures Paired(x, y, a + [s], n)
  {
    if x.Some? {
      var i: nat :| OfItem(x.value.key, y.value.key, a, i, n);
      assert (a + [s])[i] == a[i];
      assert OfItem(x.value.key, y.value.key, a + [s], i, n);
    }
  }

  /** Keeping the later, or the earlier, of a stamp and one more item's stays paired. */
  lemma KeptPaired(rewinds: set<Marker>, x: Option<Stamped<Num>>, y: Option<Stamped<Num>>, a: seq<Shown>,
                   s: Shown, n: Name, v: Num)
    requires Apart(rewinds, a + [s]) && Paired(x, y, a, n) && Touches(EntryOf(s), n)
    ensures var k, l := EntryOf(s).key, PlacelessKey(s);
            Paired(Latest(x, v, k), Latest(y, v, l), a + [s], n) && Paired(Least(x, v, k), Least(y, v, l), a + [s], n)
  {
    var k, l, all := EntryOf(s).key, PlacelessKey(s), a + [s];
    assert all[|a|] == s && OfItem(k, l, all, |a|, n);
    StaysPaired(x, y, a, s, n);
    if x.Some? {
      var i: nat :| OfItem(x.value.key, y.value.key, a, i, n);
      assert all[i] == a[i];
      OrderKept(rewinds, all, |a|, i, n);
    }
  }

  lemma StepPaired(rewinds: set<Marker>, c: Cell, d: Cell, a: seq<Shown>, s: Shown, n: Name)
    requires Apart(rewinds, a + [s]) && CellsPaired(c, d, a, n) && Touches(EntryOf(s), n)
    ensures var kind := EntryOf(s).entry.kind;
            CellsPaired(CellStep(c, kind, n, EntryOf(s).key), CellStep(d, NarrowKind(kind, n), n, PlacelessKey(s)), a + [s], n)
  {
    var kind, k, l, all := EntryOf(s).entry.kind, EntryOf(s).key, PlacelessKey(s), a + [s];
    StaysPaired(c.latest, d.latest, a, s, n);
    StaysPaired(c.first, d.first, a, s, n);
    assert all[|a|] == s && OfItem(k, l, all, |a|, n);
    if n in MetricWrites(kind) {
      var v := MetricWrites(kind)[n];
      KeptPaired(rewinds, c.latest, d.latest, a, s, n, v);
      KeptPaired(rewinds, c.first, d.first, a, s, n, v);
      if c.seen.Some? && c.seen.value.Once? && c.latest.Some? {
        var only := c.seen.value.only;
        KeptPaired(rewinds, Some(Stamped(only, c.latest.value.key)), Some(Stamped(only, d.latest.value.key)), a, s, n, v);
      }
    } else {
      KeptPaired(rewinds, c.latest, d.latest, a, s, n, Finite(Numbers(ParamWrites(kind))[n]));
    }
  }

  function CellOf(rewinds: set<Marker>, xs: seq<Keyed>, n: Name): Cell {
    CellAt(AppliedAll(NewFold(rewinds), xs).cells, n)
  }

  /** One more entry's part in a cell. */
  lemma CellNext(rewinds: set<Marker>, xs: seq<Keyed>, x: Keyed, n: Name)
    requires Markers(xs + [x]) <= rewinds
    ensures Markers(xs) <= rewinds
    ensures CellOf(rewinds, xs + [x], n) ==
            if Visible(rewinds, x) then CellStep(CellOf(rewinds, xs, n), x.entry.kind, n, x.key) else CellOf(rewinds, xs, n)
  {
    var all := xs + [x];
    assert all[..|all| - 1] == xs;
    LastStep(rewinds, all);
    CellsAfter(AppliedAll(NewFold(rewinds), xs), x.entry.kind, x.key, n);
  }

  lemma PrefixApart(rewinds: set<Marker>, a: seq<Shown>, m: nat)
    requires Apart(rewinds, a) && m <= |a|
    ensures Apart(rewinds, a[..m])
  {
    forall i, j | 0 <= i < m && 0 <= j < m ensures Alone(a[..m], i, j) {
      assert Alone(a, i, j);
    }
    forall i | 0 <= i < m ensures Untied(rewinds, a[..m][i]) {
      assert Untied(rewinds, a[i]);
    }
  }

  /** A metric's cell is, but for places, the one of its own entries at placeless keys. */
  lemma {:induction false} NarrowedCell(rewinds: set<Marker>, a: seq<Shown>, n: Name)
    requires Apart(rewinds, a) && Markers(Entries(a)) <= rewinds
    ensures CellsPaired(CellOf(rewinds, Entries(a), n), CellOf(rewinds, Narrowed(a, n), n), a, n)
  {
    if a != [] {
      var init, s := a[..|a| - 1], a[|a| - 1];
      var x := EntryOf(s);
      assert a == init + [s];
      EntriesLast(a);
      CellNext(rewinds, Entries(init), x, n);
      PrefixApart(rewinds, a, |a| - 1);
      NarrowedCell(rewinds, init, n);
      NarrowedHoldsNoMarker(a, n);
      var c, d := CellOf(rewinds, Entries(init), n), CellOf(rewinds, Narrowed(init, n), n);
      StaysPaired(c.latest, d.latest, init, s, n);
      StaysPaired(c.first, d.first, init, s, n);
      if Touches(x, n) {
        var y := Narrow(s, n)[0];
        assert Narrowed(a, n) == Narrowed(init, n) + [y];
        CellNext(rewinds, Narrowed(init, n), y, n);
        VisibleKept(rewinds, a, |a| - 1, n);
        StepPaired(rewinds, c, d, init, s, n);
      } else {
        assert Narrowed(a, n) == Narrowed(init, n);
      }
    }
  }

  // ------------------------------------------------------------ any order, any places

  function Strip(s: Shown): Shown { if s.Logs? then s else s.(place := 0) }

  function StripAll(a: seq<Shown>): (b: seq<Shown>)
    ensures |b| == |a|
  {
    seq(|a|, i requires 0 <= i < |a| => Strip(a[i]))
  }

  /** The same log entries, and the same points of each writer under each stream key. */
  ghost predicate SameParts(a: seq<Shown>, b: seq<Shown>) {
    && multiset(LogPart(a)) == multiset(LogPart(b))
    && forall w, k :: multiset(PointsOf(a, w, k)) == multiset(PointsOf(b, w, k))
  }

  /** How often an item is in a list, places aside. */
  lemma {:induction false} StrippedCount(a: seq<Shown>, y: Shown)
    ensures multiset(StripAll(a))[y] ==
            match y
            case Logs(x) => multiset(LogPart(a))[x]
            case Streams(key, writer, p, place) => if place == 0 then multiset(PointsOf(a, writer, key))[p] else 0
  {
    if a != [] {
      var init, s := a[..|a| - 1], a[|a| - 1];
      StrippedCount(init, y);
      assert StripAll(a) == StripAll(init) + [Strip(s)];
    }
  }

  lemma StrippedSame(a: seq<Shown>, b: seq<Shown>)
    requires SameParts(a, b)
    ensures multiset(StripAll(a)) == multiset(StripAll(b))
  {
    forall y ensures multiset(StripAll(a))[y] == multiset(StripAll(b))[y] {
      StrippedCount(a, y);
      StrippedCount(b, y);
      if y.Streams? {
        assert multiset(PointsOf(a, y.writer, y.key)) == multiset(PointsOf(b, y.writer, y.key));
      }
    }
  }

  lemma TakeAway<T>(s: seq<T>, i: nat)
    requires i < |s|
    ensures multiset(s) == multiset(s[..i] + s[i + 1..]) + multiset{s[i]}
  {
    assert s == s[..i] + [s[i]] + s[i + 1..];
  }

  lemma LessOne<T>(a: multiset<T>, b: multiset<T>, x: T)
    requires a + multiset{x} == b + multiset{x}
    ensures a == b
  {
    assert a == (a + multiset{x}) - multiset{x} && b == (b + multiset{x}) - multiset{x};
  }

  /** Two items of one list are two of the other. */
  lemma TwoPlaces<T>(s: seq<T>, t: seq<T>, i: nat, j: nat) returns (x: nat, y: nat)
    requires multiset(s) == multiset(t) && i < |s| && j < |s| && i != j
    ensures x < |t| && y < |t| && x != y && t[x] == s[i] && t[y] == s[j]
  {
    x := OnePlace(s, t, i);
    TakeAway(s, i);
    TakeAway(t, x);
    var rest, other := s[..i] + s[i + 1..], t[..x] + t[x + 1..];
    LessOne(multiset(rest), multiset(other), s[i]);
    var k := if j < i then j else j - 1;
    assert rest[k] == s[j];
    var z := OnePlace(rest, other, k);
    y := if z < x then z else z + 1;
    assert other[z] == t[y];
  }

  lemma OnePlace<T>(s: seq<T>, t: seq<T>, i: nat) returns (x: nat)
    requires multiset(s) == multiset(t) && i < |s|
    ensures x < |t| && t[x] == s[i]
  {
    assert s[i] in multiset(t);
    x :| 0 <= x < |t| && t[x] == s[i];
  }

  /** What is apart stays so in any order and at any places. */
  lemma ApartCarries(rewinds: set<Marker>, a: seq<Shown>, b: seq<Shown>)
    requires multiset(StripAll(a)) == multiset(StripAll(b)) && Apart(rewinds, a)
    ensures Apart(rewinds, b)
  {
    forall i, j | 0 <= i < |b| && 0 <= j < |b| ensures Alone(b, i, j) {
      if i != j {
        var x, y := TwoPlaces(StripAll(b), StripAll(a), i, j);
        assert Strip(a[x]) == Strip(b[i]) && Strip(a[y]) == Strip(b[j]);
        assert Alone(a, x, y);
      }
    }
    forall i | 0 <= i < |b| ensures Untied(rewinds, b[i]) {
      var x := OnePlace(StripAll(b), StripAll(a), i);
      assert Strip(a[x]) == Strip(b[i]);
      assert Untied(rewinds, a[x]);
    }
  }

  lemma {:induction false} NarrowedJoined(a: seq<Shown>, b: seq<Shown>, n: Name)
    ensures Narrowed(a + b, n) == Narrowed(a, n) + Narrowed(b, n)
  {
    if b == [] {
      assert a + b == a;
    } else {
      NarrowedJoined(a, b[..|b| - 1], n);
      assert (a + b)[..|a + b| - 1] == a + b[..|b| - 1];
    }
  }

  lemma NarrowedWithout(b: seq<Shown>, j: nat, n: Name)
    requires j < |b|
    ensures multiset(Narrowed(b, n)) == multiset(Narrowed(b[..j] + b[j + 1..], n)) + multiset(Narrow(b[j], n))
  {
    assert b == b[..j] + [b[j]] + b[j + 1..];
    NarrowedJoined(b[..j] + [b[j]], b[j + 1..], n);
    NarrowedJoined(b[..j], [b[j]], n);
    NarrowedJoined(b[..j], b[j + 1..], n);
    assert Narrowed([b[j]], n) == Narrow(b[j], n) by {
      assert [b[j]][..0] == [];
      assert Narrowed([b[j]][..0], n) == [];
    }
  }

  lemma StripWithout(b: seq<Shown>, j: nat)
    requires j < |b|
    ensures multiset(StripAll(b[..j] + b[j + 1..])) == multiset(StripAll(b)) - multiset{Strip(b[j])}
  {
    TakeAway(StripAll(b), j);
    assert StripAll(b[..j] + b[j + 1..]) == StripAll(b)[..j] + StripAll(b)[j + 1..];
  }

  lemma {:induction false} NarrowedSame(a: seq<Shown>, b: seq<Shown>, n: Name)
    requires multiset(StripAll(a)) == multiset(StripAll(b))
    ensures multiset(Narrowed(a, n)) == multiset(Narrowed(b, n))
    decreases |a|
  {
    if a == [] {
      assert |multiset(StripAll(b))| == 0;
    } else {
      var m := |a| - 1;
      var j := OnePlace(StripAll(a), StripAll(b), m);
      assert Strip(a[m]) == Strip(b[j]);
      StripWithout(a, m);
      StripWithout(b, j);
      assert a[..m] + a[m + 1..] == a[..m];
      NarrowedSame(a[..m], b[..j] + b[j + 1..], n);
      NarrowedWithout(a, m, n);
      NarrowedWithout(b, j, n);
      assert Narrow(a[m], n) == Narrow(b[j], n);
    }
  }

  lemma {:induction false} NarrowedFrom(a: seq<Shown>, n: Name, y: Keyed)
    requires y in Narrowed(a, n)
    ensures exists i :: 0 <= i < |a| && Touches(EntryOf(a[i]), n) && y.key == PlacelessKey(a[i])
  {
    var init := a[..|a| - 1];
    if y in Narrowed(init, n) {
      NarrowedFrom(init, n, y);
      var i :| 0 <= i < |init| && Touches(EntryOf(init[i]), n) && y.key == PlacelessKey(init[i]);
      assert a[i] == init[i];
    } else {
      assert y in Narrow(a[|a| - 1], n);
    }
  }

  lemma {:induction false} LogsIn(a: seq<Shown>, i: nat)
    requires i < |a| && a[i].Logs?
    ensures a[i].x in LogPart(a)
  {
    if i < |a| - 1 { LogsIn(a[..|a| - 1], i); }
  }

  /** A metric's entries have keys of their own. */
  lemma {:induction false} NarrowedDistinct(rewinds: set<Marker>, a: seq<Shown>, n: Name)
    requires Apart(rewinds, a) && DistinctKeys(LogPart(a))
    ensures DistinctKeys(Narrowed(a, n))
  {
    if a != [] {
      var m := |a| - 1;
      var init, s := a[..m], a[m];
      PrefixApart(rewinds, a, m);
      assert forall i :: 0 <= i < |LogPart(init)| ==> LogPart(a)[i] == LogPart(init)[i];
      NarrowedDistinct(rewinds, init, n);
      if Touches(EntryOf(s), n) {
        forall y | y in Narrowed(init, n) ensures y.key != PlacelessKey(s) {
          NarrowedFrom(init, n, y);
          var i :| 0 <= i < |init| && Touches(EntryOf(init[i]), n) && y.key == PlacelessKey(init[i]);
          assert Alone(a, i, m) && Alone(a, m, i) && a[i] == init[i];
          if s.Logs? && a[i].Logs? {
            LogsIn(init, i);
            var q :| 0 <= q < |LogPart(init)| && LogPart(init)[q] == init[i].x;
            assert LogPart(a)[|LogPart(a)| - 1] == s.x && LogPart(a)[q] == init[i].x;
          }
        }
      }
    }
  }

  lemma PairedSame(x: Option<Stamped<Num>>, y: Option<Stamped<Num>>, z: Option<Stamped<Num>>, a: seq<Shown>,
                   b: seq<Shown>, n: Name)
    requires Paired(x, y, a, n) && Paired(z, y, b, n)
    ensures SameStamp(x, z)
  {
    if x.Some? {
      var i: nat :| OfItem(x.value.key, y.value.key, a, i, n);
      var j: nat :| OfItem(z.value.key, y.value.key, b, j, n);
    }
  }

  lemma SameNarrowed(rewinds: set<Marker>, a: seq<Shown>, b: seq<Shown>, n: Name)
    requires multiset(StripAll(a)) == multiset(StripAll(b)) && Apart(rewinds, a) && Apart(rewinds, b)
    requires Markers(Entries(a)) <= rewinds && Markers(Entries(b)) <= rewinds && DistinctKeys(LogPart(b))
    ensures SameCell(CellOf(rewinds, Entries(a), n), CellOf(rewinds, Entries(b), n))
  {
    NarrowedCell(rewinds, a, n);
    NarrowedCell(rewinds, b, n);
    NarrowedSame(a, b, n);
    NarrowedDistinct(rewinds, b, n);
    NarrowedHoldsNoMarker(b, n);
    FoldIgnoresOrder(rewinds, Narrowed(a, n), Narrowed(b, n));
    var c, d, e := CellOf(rewinds, Entries(a), n), CellOf(rewinds, Narrowed(b, n), n), CellOf(rewinds, Entries(b), n);
    PairedSame(c.latest, d.latest, e.latest, a, b, n);
    PairedSame(c.first, d.first, e.first, a, b, n);
  }

  // The last metric.

  predicate Counts(rewinds: set<Marker>, x: Keyed) { x.entry.kind.Metrics? && Visible(rewinds, x) }

  /** The key held is that of a visible metrics entry, and none is later. */
  lemma {:induction false} LastIs(rewinds: set<Marker>, xs: seq<Keyed>)
    requires Markers(xs) <= rewinds
    ensures var last := AppliedAll(NewFold(rewinds), xs).lastMetric;
            if last.None? then forall x :: x in xs ==> !Counts(rewinds, x)
            else (exists x :: x in xs && Counts(rewinds, x) && x.key == last.value)
                 && forall x :: x in xs && Counts(rewinds, x) ==> !Before(last.value, x.key)
  {
    if xs != [] {
      var init, x := xs[..|xs| - 1], xs[|xs| - 1];
      LastStep(rewinds, xs);
      LastIs(rewinds, init);
      assert forall y :: y in xs <==> y in init || y == x;
    }
  }

  /** An item's counterpart has its timestamp and writer, and is visible when it is. */
  lemma CounterpartCounts(rewinds: set<Marker>, s: Shown, t: Shown)
    requires Strip(s) == Strip(t) && Untied(rewinds, s) && Untied(rewinds, t)
    ensures SameKey(EntryOf(s).key, EntryOf(t).key) && (Counts(rewinds, EntryOf(s)) <==> Counts(rewinds, EntryOf(t)))
  {
    if s.Streams? {
      forall m | m in rewinds ensures Before(EntryOf(s).key, m.key) <==> Before(EntryOf(t).key, m.key) {
      }
    }
  }

  lemma Counterpart(rewinds: set<Marker>, a: seq<Shown>, b: seq<Shown>, x: Keyed) returns (y: Keyed)
    requires multiset(StripAll(a)) == multiset(StripAll(b)) && Apart(rewinds, a) && Apart(rewinds, b)
    requires x in Entries(a)
    ensures y in Entries(b) && SameKey(x.key, y.key) && (Counts(rewinds, x) <==> Counts(rewinds, y))
  {
    var i :| 0 <= i < |a| && Entries(a)[i] == x;
    var j := OnePlace(StripAll(a), StripAll(b), i);
    assert Strip(a[i]) == Strip(b[j]) && Untied(rewinds, a[i]) && Untied(rewinds, b[j]);
    CounterpartCounts(rewinds, a[i], b[j]);
    y := Entries(b)[j];
  }

  lemma SameLastMetric(rewinds: set<Marker>, a: seq<Shown>, b: seq<Shown>)
    requires multiset(StripAll(a)) == multiset(StripAll(b)) && Apart(rewinds, a) && Apart(rewinds, b)
    requires Markers(Entries(a)) <= rewinds && Markers(Entries(b)) <= rewinds
    ensures SameLast(AppliedAll(NewFold(rewinds), Entries(a)).lastMetric, AppliedAll(NewFold(rewinds), Entries(b)).lastMetric)
  {
    LastIs(rewinds, Entries(a));
    LastIs(rewinds, Entries(b));
    var l, m := AppliedAll(NewFold(rewinds), Entries(a)).lastMetric, AppliedAll(NewFold(rewinds), Entries(b)).lastMetric;
    if l.Some? {
      var x :| x in Entries(a) && Counts(rewinds, x) && x.key == l.value;
      var y := Counterpart(rewinds, a, b, x);
    }
    if m.Some? {
      var x :| x in Entries(b) && Counts(rewinds, x) && x.key == m.value;
      var y := Counterpart(rewinds, b, a, x);
    }
  }

  // The rest.

  /** Everything but metric values is the log entries' alone. */
  ghost predicate SameLogFields(f: Fold, g: Fold) {
    && f.params == g.params && f.tags == g.tags && f.slots == g.slots && f.features == g.features
    && f.create == g.create && f.rewinds == g.rewinds && f.stale == g.stale
  }

  lemma PointAside(f: Fold, s: Shown)
    requires s.Streams?
    ensures SameLogFields(Applied(f, EntryOf(s)), f)
  {
    var kind := EntryOf(s).entry.kind;
    assert KeepAll(f.params, ParamWrites(kind), EntryOf(s).key) == f.params;
    assert KeepAll(f.tags, TagWrites(kind), EntryOf(s).key) == f.tags;
    assert KeepAll(f.slots, SlotWrites(kind), EntryOf(s).key) == f.slots;
  }

  lemma SameLogFieldsStep(f: Fold, g: Fold, x: Keyed)
    requires SameLogFields(f, g)
    ensures SameLogFields(Applied(f, x), Applied(g, x))
  {
    hide LogAll, NumbersAll, Numbers, KeepAll, IsRewound, KeepLastMetric, KeepFeatures, KeepCreate;
  }

  lemma {:induction false} LogsAlone(f: Fold, a: seq<Shown>)
    ensures SameLogFields(AppliedAll(f, Entries(a)), AppliedAll(f, LogPart(a)))
  {
    if a != [] {
      var init, s := a[..|a| - 1], a[|a| - 1];
      EntriesLast(a);
      LogsAlone(f, init);
      LastApplied(f, Entries(init), EntryOf(s));
      if s.Logs? {
        LastApplied(f, LogPart(init), s.x);
        SameLogFieldsStep(AppliedAll(f, Entries(init)), AppliedAll(f, LogPart(init)), s.x);
      } else {
        PointAside(AppliedAll(f, Entries(init)), s);
      }
    }
  }

  lemma {:induction false} MarkersAreLogs(a: seq<Shown>)
    ensures Markers(Entries(a)) == Markers(LogPart(a))
  {
    if a != [] {
      EntriesLast(a);
      MarkersAreLogs(a[..|a| - 1]);
      MarkersOfLast(Entries(a));
      if a[|a| - 1].Logs? { MarkersOfLast(LogPart(a)); }
    }
  }

  /** The same log entries and points, in any order and at any places, fold to the same but
      for those places. */
  lemma SameShown(rewinds: set<Marker>, a: seq<Shown>, b: seq<Shown>)
    requires SameParts(a, b) && Apart(rewinds, b) && DistinctKeys(LogPart(b)) && Markers(LogPart(b)) <= rewinds
    ensures SameFold(AppliedAll(NewFold(rewinds), Entries(a)), AppliedAll(NewFold(rewinds), Entries(b)))
  {
    hide AppliedAll, Entries, LogPart, PointsOf, Apart, StripAll, DistinctKeys, SameCell, Markers;
    StrippedSame(a, b);
    ApartCarries(rewinds, b, a);
    SameMarkers(LogPart(a), LogPart(b));
    MarkersAreLogs(a);
    MarkersAreLogs(b);
    forall n ensures SameCell(CellOf(rewinds, Entries(a), n), CellOf(rewinds, Entries(b), n)) {
      SameNarrowed(rewinds, a, b, n);
    }
    SameLastMetric(rewinds, a, b);
    LogsAlone(NewFold(rewinds), a);
    LogsAlone(NewFold(rewinds), b);
    FoldIgnoresOrder(rewinds, LogPart(a), LogPart(b));
    var f, g := AppliedAll(NewFold(rewinds), Entries(a)), AppliedAll(NewFold(rewinds), Entries(b));
    assert SameLogFields(f, g);
    forall n ensures SameCell(CellAt(f.cells, n), CellAt(g.cells, n)) {
      assert SameCell(CellOf(rewinds, Entries(a), n), CellOf(rewinds, Entries(b), n));
    }
  }

  /** Points that tie are not folded alike in every order: two of a key at one timestamp,
      either before the other. */
  lemma TiesTell(k: Name, writer: int, us: int, u: Num, v: Num)
    requires u != v
    ensures var p, q := Point(u, us, None), Point(v, us, None);
            var a, b := [Streams(k, writer, p, 0), Streams(k, writer, q, 1)], [Streams(k, writer, q, 0), Streams(k, writer, p, 1)];
            SameParts(a, b) && !SameFold(AppliedAll(NewFold({}), Entries(a)), AppliedAll(NewFold({}), Entries(b)))
  {
    hide SameFold;
    var p, q := Point(u, us, None), Point(v, us, None);
    var a, b := [Streams(k, writer, p, 0), Streams(k, writer, q, 1)], [Streams(k, writer, q, 0), Streams(k, writer, p, 1)];
    LastOfTwo(k, writer, p, q);
    LastOfTwo(k, writer, q, p);
    TwoParts(k, writer, p, q);
    TwoParts(k, writer, q, p);
    var f, g := AppliedAll(NewFold({}), Entries(a)), AppliedAll(NewFold({}), Entries(b));
    if SameFold(f, g) { SameLatest(f, g, BaseKey(k)); }
  }

  lemma SameLatest(f: Fold, g: Fold, n: Name)
    requires SameFold(f, g)
    ensures SameStamp(CellAt(f.cells, n).latest, CellAt(g.cells, n).latest)
  {
    assert SameCell(CellAt(f.cells, n), CellAt(g.cells, n));
  }

  lemma LastOfTwo(k: Name, writer: int, p: Point, q: Point)
    requires p.us == q.us && p.step.None? && q.step.None?
    ensures var a := [Streams(k, writer, p, 0), Streams(k, writer, q, 1)];
            var c := CellOf({}, Entries(a), BaseKey(k));
            c.latest.Some? && c.latest.value.value == q.value
  {
    var x, y := PointEntry(k, writer, p, 0), PointEntry(k, writer, q, 1);
    var a := [Streams(k, writer, p, 0), Streams(k, writer, q, 1)];
    assert Entries(a) == [] + [x] + [y];
    CellNext({}, [x], y, BaseKey(k));
    CellNext({}, [], x, BaseKey(k));
    assert [] + [x] == [x];
  }

  lemma TwoParts(k: Name, writer: int, p: Point, q: Point)
    ensures var a := [Streams(k, writer, p, 0), Streams(k, writer, q, 1)];
            LogPart(a) == [] && forall w, j :: PointsOf(a, w, j) == if w == writer && j == k then [p, q] else []
  {
    var a := [Streams(k, writer, p, 0), Streams(k, writer, q, 1)];
    assert a[..1] == [Streams(k, writer, p, 0)] && a[..1][..0] == [];
    assert LogPart(a[..1][..0]) == [] && LogPart(a[..1]) == [];
    forall w, j ensures PointsOf(a, w, j) == if w == writer && j == k then [p, q] else [] {
      assert PointsOf(a[..1], w, j) == if w == writer && j == k then [p] else [];
    }
  }

  // --------------------------------------------------------------- headers and points

  function LaterKey(held: Option<Key>, k: Key): Option<Key> {
    if held.Some? && Before(k, held.value) then held else Some(k)
  }

  /** A key of a header, or of a writer's sums, folded into a record. */
  function KeyApplied(f: Fold, n: Name, e: KeyEntry, writer: int): Fold {
    f.(cells := f.cells[n := ApplyKey(CellAt(f.cells, n), e, writer)],
       lastMetric := LaterKey(f.lastMetric, Key(Rank(e.last.us), writer, e.at.1)))
  }

  function StreamsOf(key: Name, writer: int, points: seq<Point>, places: seq<nat>): (a: seq<Shown>)
    requires |points| == |places|
    ensures |a| == |points|
  {
    seq(|points|, i requires 0 <= i < |points| => Streams(key, writer, points[i], places[i]))
  }

  /** None of the points is hidden. */
  ghost predicate AllShown(rewinds: set<Marker>, key: Name, writer: int, points: seq<Point>, places: seq<nat>)
    requires |points| == |places|
  {
    forall i :: 0 <= i < |points| ==> !IsRewound(rewinds, PointEntry(key, writer, points[i], places[i]))
  }

  lemma PointApplied(f: Fold, key: Name, writer: int, p: Point, place: nat)
    requires !IsRewound(f.rewinds, PointEntry(key, writer, p, place))
    ensures var n, k := BaseKey(key), Key(Rank(p.us), writer, place);
            Applied(f, PointEntry(key, writer, p, place)) ==
            f.(cells := f.cells[n := LogValue(CellAt(f.cells, n), p.value, k)], lastMetric := LaterKey(f.lastMetric, k))
  {
    hide LogValue, KeepAll, Before, Rank, BaseKey, StepOf;
    var x, n := PointEntry(key, writer, p, place), BaseKey(key);
    PointAside(f, Streams(key, writer, p, place));
    assert NumbersAll(f.cells, Numbers(ParamWrites(x.entry.kind)), x.key) == f.cells;
    assert LogAll(f.cells, MetricWrites(x.entry.kind), x.key) == f.cells[n := LogValue(CellAt(f.cells, n), p.value, x.key)];
  }

  /** The latest of a key held and those of some points. */
  function LastOf(held: Option<Key>, points: seq<Point>, places: seq<nat>, writer: int): Option<Key>
    requires |points| == |places|
  {
    if points == [] then held
    else
      var m := |points| - 1;
      LaterKey(LastOf(held, points[..m], places[..m], writer), Key(Rank(points[m].us), writer, places[m]))
  }

  lemma StreamsLast(key: Name, writer: int, points: seq<Point>, places: seq<nat>)
    requires |points| == |places| && points != []
    ensures var m := |points| - 1;
            && StreamsOf(key, writer, points, places)
               == StreamsOf(key, writer, points[..m], places[..m]) + [Streams(key, writer, points[m], places[m])]
            && StreamsOf(key, writer, points, places)[..m] == StreamsOf(key, writer, points[..m], places[..m])
  {
  }

  /** Points folded one by one. */
  lemma {:induction false} PointsApplied(f: Fold, key: Name, writer: int, points: seq<Point>, places: seq<nat>)
    requires |points| == |places| && AllShown(f.rewinds, key, writer, points, places)
    ensures AppliedAll(f, Entries(StreamsOf(key, writer, points, places))) ==
            if points == [] then f
            else
              var n := BaseKey(key);
              f.(cells := f.cells[n := PointsFold(CellAt(f.cells, n), points, places, writer)],
                 lastMetric := LastOf(f.lastMetric, points, places, writer))
  {
    hide LogValue, LaterKey, Applied, Rank, BaseKey, IsRewound;
    var n := BaseKey(key);
    if points != [] {
      var m := |points| - 1;
      var a := StreamsOf(key, writer, points[..m], places[..m]);
      PointsApplied(f, key, writer, points[..m], places[..m]);
      StreamsLast(key, writer, points, places);
      EntriesLast(StreamsOf(key, writer, points, places));
      LastApplied(f, Entries(a), PointEntry(key, writer, points[m], places[m]));
      PointApplied(AppliedAll(f, Entries(a)), key, writer, points[m], places[m]);
    }
  }

  /** The latest key is held, or one of the points'. */
  lemma {:induction false} LastIsOne(held: Option<Key>, points: seq<Point>, places: seq<nat>, writer: int)
    requires |points| == |places|
    ensures var last := LastOf(held, points, places, writer);
            last == held || exists i :: 0 <= i < |points| && last == Some(Key(Rank(points[i].us), writer, places[i]))
    ensures held.Some? ==> LastOf(held, points, places, writer).Some? && !Before(LastOf(held, points, places, writer).value, held.value)
  {
    if points != [] {
      var m := |points| - 1;
      LastIsOne(held, points[..m], places[..m], writer);
      var last := LastOf(held, points[..m], places[..m], writer);
      if last != held {
        var i :| 0 <= i < m && last == Some(Key(Rank(points[..m][i].us), writer, places[..m][i]));
        assert points[..m][i] == points[i] && places[..m][i] == places[i];
      }
      assert LastOf(held, points, places, writer) == LaterKey(last, Key(Rank(points[m].us), writer, places[m]));
    }
  }

  lemma LastOfSorted(held: Option<Key>, points: seq<Point>, places: seq<nat>, writer: int)
    requires points != [] && |points| == |places| && EndsSorted(points) && InPlace(places)
    ensures LastOf(held, points, places, writer)
            == LaterKey(held, Key(Rank(points[|points| - 1].us), writer, places[|points| - 1]))
  {
    var m := |points| - 1;
    LastIsOne(held, points[..m], places[..m], writer);
    var last, k := LastOf(held, points[..m], places[..m], writer), Key(Rank(points[m].us), writer, places[m]);
    if last != held {
      var i :| 0 <= i < m && last == Some(Key(Rank(points[..m][i].us), writer, places[..m][i]));
      assert points[..m][i] == points[i] && places[..m][i] == places[i];
      assert Rank(points[i].us) <= Rank(points[m].us) && places[i] <= places[m];
    }
  }

  /** A header's key folds to what its points do one by one, at places of its block, if none
      of them is hidden and its first and last are so in string order. */
  lemma HeaderFoldsPoints(f: Fold, key: Name, writer: int, points: seq<Point>, places: seq<nat>)
    requires points != [] && |points| == |places| && EndsSorted(points) && InPlace(places)
    requires CellOk(CellAt(f.cells, BaseKey(key))) && AllShown(f.rewinds, key, writer, points, places)
    ensures KeyApplied(f, BaseKey(key), Header(points, places), writer)
            == AppliedAll(f, Entries(StreamsOf(key, writer, points, places)))
  {
    PointsApplied(f, key, writer, points, places);
    LastOfSorted(f.lastMetric, points, places, writer);
    HeaderIsPoints(points, places, writer);
  }

  // Sums.

  function HeadsApplied(f: Fold, n: Name, es: seq<KeyEntry>, writer: int): Fold {
    if es == [] then f else KeyApplied(HeadsApplied(f, n, es[..|es| - 1], writer), n, es[|es| - 1], writer)
  }

  lemma LaterOfTwo(held: Option<Key>, k: Key, l: Key)
    ensures LaterKey(LaterKey(held, k), l) == LaterKey(held, if Before(l, k) then k else l)
  {
  }

  lemma CombinedApplied(f: Fold, n: Name, a: KeyEntry, b: KeyEntry, writer: int)
    requires CellOk(CellAt(f.cells, n)) && EntryOk(a) && EntryOk(b)
    ensures KeyApplied(f, n, Combined(a, b), writer) == KeyApplied(KeyApplied(f, n, a, writer), n, b, writer)
    ensures EntryOk(Combined(a, b))
  {
    hide ApplyKey, EntryOk;
    CombinedFoldsBoth(CellAt(f.cells, n), a, b, writer);
    LaterOfTwo(f.lastMetric, Key(Rank(a.last.us), writer, a.at.1), Key(Rank(b.last.us), writer, b.at.1));
    var g := KeyApplied(KeyApplied(f, n, a, writer), n, b, writer);
    assert KeyApplied(f, n, Combined(a, b), writer).cells == g.cells;
  }

  lemma SumsEntryApplied(f: Fold, n: Name, e: KeyEntry, writer: int)
    requires EntryOk(e)
    ensures KeyApplied(f, n, SumsEntry(e), writer) == KeyApplied(f, n, e, writer) && EntryOk(SumsEntry(e))
  {
  }

  lemma {:induction false} SumsApplied(f: Fold, n: Name, es: seq<KeyEntry>, writer: int)
    requires es != [] && CellOk(CellAt(f.cells, n)) && forall i :: 0 <= i < |es| ==> EntryOk(es[i])
    ensures KeyApplied(f, n, Sums(es), writer) == HeadsApplied(f, n, es, writer) && EntryOk(Sums(es))
  {
    hide ApplyKey, EntryOk, Combined, SumsEntry;
    var m := |es| - 1;
    if m == 0 {
      SumsEntryApplied(f, n, es[0], writer);
      assert HeadsApplied(f, n, es[..0], writer) == f;
    } else {
      SumsApplied(f, n, es[..m], writer);
      SumsEntryApplied(KeyApplied(f, n, Sums(es[..m]), writer), n, es[m], writer);
      SumsEntryApplied(f, n, es[m], writer);
      CombinedApplied(f, n, Sums(es[..m]), SumsEntry(es[m]), writer);
    }
  }

  /** Points of one key at their places: what one header sums up. */
  datatype Piece = Piece(points: seq<Point>, places: seq<nat>)

  ghost predicate PieceOk(p: Piece) {
    p.points != [] && |p.points| == |p.places| && EndsSorted(p.points) && InPlace(p.places)
  }

  ghost predicate PiecesOk(ps: seq<Piece>) { forall i :: 0 <= i < |ps| ==> PieceOk(ps[i]) }

  ghost predicate Whole(ps: seq<Piece>) {
    forall i :: 0 <= i < |ps| ==> ps[i].points != [] && |ps[i].points| == |ps[i].places|
  }

  ghost function Heads(ps: seq<Piece>): (es: seq<KeyEntry>)
    requires Whole(ps)
    ensures |es| == |ps|
  {
    seq(|ps|, i requires 0 <= i < |ps| => Header(ps[i].points, ps[i].places))
  }

  ghost function PieceStreams(key: Name, writer: int, ps: seq<Piece>): seq<Shown>
    requires PiecesOk(ps)
  {
    if ps == [] then []
    else PieceStreams(key, writer, ps[..|ps| - 1]) + StreamsOf(key, writer, ps[|ps| - 1].points, ps[|ps| - 1].places)
  }

  ghost predicate PiecesShown(rewinds: set<Marker>, key: Name, writer: int, ps: seq<Piece>)
    requires PiecesOk(ps)
  {
    forall i :: 0 <= i < |ps| ==> AllShown(rewinds, key, writer, ps[i].points, ps[i].places)
  }

  lemma HeaderOk(points: seq<Point>, places: seq<nat>)
    requires points != [] && |points| == |places|
    ensures EntryOk(Header(points, places))
  {
    FiniteSummaryOk(points);
    if |points| == 1 {
      assert FiniteSummary(points[..0]) == NO_VALUES;
    }
  }

  lemma KeyAppliedOk(f: Fold, n: Name, e: KeyEntry, writer: int)
    requires CellOk(CellAt(f.cells, n)) && EntryOk(e)
    ensures CellOk(CellAt(KeyApplied(f, n, e, writer).cells, n)) && KeyApplied(f, n, e, writer).rewinds == f.rewinds
  {
    ApplyKeepsOk(CellAt(f.cells, n), e, writer);
  }

  lemma {:induction false} HeadsFoldPoints(f: Fold, key: Name, writer: int, ps: seq<Piece>)
    requires PiecesOk(ps) && CellOk(CellAt(f.cells, BaseKey(key))) && PiecesShown(f.rewinds, key, writer, ps)
    ensures var g := HeadsApplied(f, BaseKey(key), Heads(ps), writer);
            && g == AppliedAll(f, Entries(PieceStreams(key, writer, ps)))
            && CellOk(CellAt(g.cells, BaseKey(key))) && g.rewinds == f.rewinds
  {
    hide ApplyKey, KeyApplied, Applied, AppliedAll, Header, EndsSorted, AllShown, CellOk, EntryOk, StreamsOf;
    if ps != [] {
      var m, n := |ps| - 1, BaseKey(key);
      var init, p := ps[..m], ps[m];
      HeadsFoldPoints(f, key, writer, init);
      assert Heads(ps)[..m] == Heads(init) && Heads(ps)[m] == Header(p.points, p.places);
      var g := HeadsApplied(f, n, Heads(init), writer);
      HeaderOk(p.points, p.places);
      KeyAppliedOk(g, n, Header(p.points, p.places), writer);
      HeaderFoldsPoints(g, key, writer, p.points, p.places);
      EntriesJoined(PieceStreams(key, writer, init), StreamsOf(key, writer, p.points, p.places));
      AppliedOn(f, Entries(PieceStreams(key, writer, init)), Entries(StreamsOf(key, writer, p.points, p.places)));
    } else {
      NothingApplied(f);
    }
  }

  lemma NothingApplied(f: Fold)
    ensures AppliedAll(f, Entries([])) == f
  {
  }

  lemma {:induction false} AppliedOn(f: Fold, xs: seq<Keyed>, ys: seq<Keyed>)
    ensures AppliedAll(f, xs + ys) == AppliedAll(AppliedAll(f, xs), ys)
  {
    if ys == [] {
      assert xs + ys == xs;
    } else {
      AppliedOn(f, xs, ys[..|ys| - 1]);
      assert (xs + ys)[..|xs + ys| - 1] == xs + ys[..|ys| - 1];
    }
  }

  /** A key of a writer's sums folds to what all its points do one by one. */
  lemma SumsFoldPoints(f: Fold, key: Name, writer: int, ps: seq<Piece>)
    requires ps != [] && PiecesOk(ps) && CellOk(CellAt(f.cells, BaseKey(key)))
    requires PiecesShown(f.rewinds, key, writer, ps)
    ensures KeyApplied(f, BaseKey(key), Sums(Heads(ps)), writer) == AppliedAll(f, Entries(PieceStreams(key, writer, ps)))
    ensures EntryOk(Sums(Heads(ps)))
  {
    forall i | 0 <= i < |ps| ensures EntryOk(Heads(ps)[i]) { HeaderOk(ps[i].points, ps[i].places); }
    SumsApplied(f, BaseKey(key), Heads(ps), writer);
    HeadsFoldPoints(f, key, writer, ps);
  }

  // ------------------------------------------------------------------ rewinds noticed

  /** The time of a timestamp written by `us_to_iso`; none of any other string. */
  function UsOf(ts: int): Option<int> {
    var sec, r := ts / (2 * SECOND), ts % (2 * SECOND);
    if r == SECOND then Some(sec * SECOND) else if 0 < r < SECOND then Some(sec * SECOND + r) else None
  }

  lemma UsReadBack(us: int)
    ensures UsOf(Rank(us)) == Some(us)
  {
  }

  lemma UsIsRank(ts: int)
    ensures UsOf(ts).Some? ==> Rank(UsOf(ts).value) == ts
  {
  }

  function MarkOf(m: Marker): Mark { Mark(m.step, UsOf(m.key.ts)) }

  function MarksOf(rewinds: set<Marker>): set<Mark> { set m | m in rewinds :: MarkOf(m) }

  function Places(base: nat, n: nat): (ps: seq<nat>)
    ensures |ps| == n && InPlace(ps)
  {
    seq(n, i requires 0 <= i => base + i)
  }

  /** A rewind hides the point, whatever its position. */
  predicate HiddenBy(m: Marker, p: Point, writer: int) {
    p.step.Some? && m.step < p.step.value as real && Before(Key(Rank(p.us), writer, 0), m.key)
  }

  /** A rewind that hides a point may hide some of its block, as the header tells it. */
  ghost predicate Noticed(rewinds: set<Marker>, points: seq<Point>, writer: int) {
    points != [] ==> forall m, i :: m in rewinds && 0 <= i < |points| && HiddenBy(m, points[i], writer) ==>
      MayBeRewound({MarkOf(m)}, Header(points, Places(0, |points|)))
  }

  ghost predicate UntiedPoints(rewinds: set<Marker>, points: seq<Point>, writer: int) {
    forall m, i :: m in rewinds && 0 <= i < |points| ==> !SameKey(m.key, Key(Rank(points[i].us), writer, 0))
  }

  lemma HiddenIsNoticed(rewinds: set<Marker>, writer: int, points: seq<Point>, places: seq<nat>, m: Marker, i: nat)
    requires i < |points| == |places| && Noticed(rewinds, points, writer) && m in rewinds
    ensures HiddenBy(m, points[i], writer) ==> MayBeRewound(MarksOf(rewinds), Header(points, places))
  {
    var h := HiddenBy(m, points[i], writer);
    assert h ==> MayBeRewound({MarkOf(m)}, Header(points, Places(0, |points|)));
    assert MarkOf(m) in MarksOf(rewinds);
  }

  /** A block whose header tells of no rewind has no hidden point. */
  lemma NoneHidden(rewinds: set<Marker>, key: Name, writer: int, points: seq<Point>, places: seq<nat>)
    requires points != [] && |points| == |places| && Noticed(rewinds, points, writer)
    requires UntiedPoints(rewinds, points, writer)
    requires !MayBeRewound(MarksOf(rewinds), Header(points, places))
    ensures AllShown(rewinds, key, writer, points, places)
  {
    forall i | 0 <= i < |points| ensures !IsRewound(rewinds, PointEntry(key, writer, points[i], places[i])) {
      var x := PointEntry(key, writer, points[i], places[i]);
      forall m | m in rewinds && points[i].step.Some? && m.step < points[i].step.value as real ensures !Before(x.key, m.key) {
        assert !SameKey(m.key, Key(Rank(points[i].us), writer, 0));
        HiddenIsNoticed(rewinds, writer, points, places, m, i);
      }
    }
  }

  /** Rewinds off whole seconds are noticed. */
  lemma OffSecondsNoticed(rewinds: set<Marker>, points: seq<Point>, writer: int)
    requires Bounded(points)
    requires forall m :: m in rewinds && UsOf(m.key.ts).Some? ==> UsOf(m.key.ts).value % SECOND != 0
    ensures Noticed(rewinds, points, writer)
  {
    forall m, i | m in rewinds && 0 <= i < |points| && HiddenBy(m, points[i], writer)
      ensures MayBeRewound({MarkOf(m)}, Header(points, Places(0, |points|)))
    {
      UsIsRank(m.key.ts);
      var e := Header(points, Places(0, |points|));
      assert MarkOf(m) in {MarkOf(m)};
      if UsOf(m.key.ts).Some? {
        var us := UsOf(m.key.ts).value;
        RankFollowsTime(points[i].us, us);
      }
    }
  }

  /** Points in order of step, as a `.vmx` keeps them: a rewind that hides one of them is
      noticed just when the first of that order is no later than the rewind. */
  lemma NoticedWhen(m: Marker, points: seq<Point>, i: nat, writer: int)
    requires i < |points| && HiddenBy(m, points[i], writer)
    requires forall j :: 0 <= j < |points| ==>
               var p, last := points[j], points[|points| - 1];
               p.step.Some? && last.step.Some? && p.step.value <= last.step.value
    ensures MayBeRewound({MarkOf(m)}, Header(points, Places(0, |points|)))
            <==> UsOf(m.key.ts).None? || points[0].us <= UsOf(m.key.ts).value
  {
    assert MarkOf(m) in {MarkOf(m)};
  }

  /** So one redone at a lower step than any before is not: its rewound points stay folded. */
  lemma RedoneLowerMissed(v: Num, writer: int)
    ensures var points := [Point(v, 4 * SECOND + 1, Some(3)), Point(v, 1, Some(5)), Point(v, SECOND + 1, Some(6))];
            var m := Marker(2.0, Key(Rank(3 * SECOND + 1), writer, 0));
            HiddenBy(m, points[1], writer) && !MayBeRewound({MarkOf(m)}, Header(points, Places(0, |points|)))
  {
    var points := [Point(v, 4 * SECOND + 1, Some(3)), Point(v, 1, Some(5)), Point(v, SECOND + 1, Some(6))];
    var m := Marker(2.0, Key(Rank(3 * SECOND + 1), writer, 0));
    UsReadBack(3 * SECOND + 1);
    assert HiddenBy(m, points[1], writer);
    NoticedWhen(m, points, 1, writer);
  }
}

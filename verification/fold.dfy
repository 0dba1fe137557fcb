/**
 The leaderboard fold: what a run's log entries, arriving per writer and in any
 chunks, fold to.

 An entry folds at the key `(timestamp, writer, position in the writer's log)`:
 each field keeps the value of the entry with the greatest key. A rewind entry
 hides every entry past its step that sorts before it, so one that arrives late
 makes the fold stale, and the log is folded once more knowing it.

 Main results: the order entries arrive in, and how the writers' logs are cut into
 chunks, do not matter (`FoldIgnoresOrder`, `FoldIgnoresChunks`); folding with at
 most one refold is folding from scratch with every rewind known, and that refold
 is never stale (`UpdatedIsScratch`); and each field holds what the greatest key
 says (`TagIsLatest` and the lemmas beside it).

 Timestamps and writers are their ranks in string order; metric values are reals
 with an explicit non-finite case, and sums are exact.
 */
module Fold {
  datatype Option<+T> = None | Some(value: T)

  type Name = string
  type Val = string

  // ----------------------------------------------------------------- entries

  datatype Key = Key(ts: int, writer: int, position: nat)

  predicate Before(a: Key, b: Key) {
    || a.ts < b.ts
    || (a.ts == b.ts && a.writer < b.writer)
    || (a.ts == b.ts && a.writer == b.writer && a.position < b.position)
  }

  /** A metric value. */
  datatype Num = Finite(r: real) | NonFinite(tag: int)

  /** A param's value, and the finite number it reads as, if any. */
  datatype Param = Param(text: Val, number: Option<real>)

  /** A field kept by its latest write alone. */
  datatype Slot = Input(name: Name) | Output(path: Name) | Definition(metric: Name, field: Name) | Intent

  datatype Kind =
    | Rewind
    | Create(params: map<Name, Param>, seeded: map<Name, Val>, note: Val)
    | Params(params: map<Name, Param>)
    | Tags(changed: map<Name, Val>, removed: set<Name>)
    | Metrics(values: map<Name, Num>)
    | Fields(writes: map<Slot, Val>)
    | Features(version: int, facts: Val)
    | Other

  datatype Entry = Entry(kind: Kind, step: Option<real>)

  datatype Keyed = Keyed(entry: Entry, key: Key)

  /** A rewind as the fold remembers it. */
  datatype Marker = Marker(step: real, key: Key)

  predicate IsMarker(x: Keyed) { x.entry.kind.Rewind? && x.entry.step.Some? }

  function MarkerOf(x: Keyed): Marker
    requires IsMarker(x)
  {
    Marker(x.entry.step.value, x.key)
  }

  function Markers(xs: seq<Keyed>): set<Marker> {
    set i | 0 <= i < |xs| && IsMarker(xs[i]) :: MarkerOf(xs[i])
  }

  /** Whether a rewind hides the entry. */
  predicate IsRewound(rewinds: set<Marker>, x: Keyed) {
    && !x.entry.kind.Rewind?
    && x.entry.step.Some?
    && exists r :: r in rewinds && r.step < x.entry.step.value && Before(x.key, r.key)
  }

  // ------------------------------------------------------------------ the fold

  datatype Stamped<+V> = Stamped(value: V, key: Key)

  /** What a metric's logged values came to: one, or the bounds, count and sum of the
      finite ones. */
  datatype Seen = Once(only: Num) | Many(low: Option<real>, high: Option<real>, n: nat, sum: real)

  /** A metric name's entries in the fold: the value `metrics` holds, its `extrema`, and
      its earliest value once there are two. */
  datatype Cell = Cell(latest: Option<Stamped<Num>>, seen: Option<Seen>, first: Option<Stamped<Num>>)

  const NO_CELL := Cell(None, None, None)

  /** The highest version wins, then the latest entry. */
  datatype Versioned = Versioned(version: int, facts: Val, key: Key)

  datatype Fold = Fold(
    params: map<Name, Stamped<Param>>,
    cells: map<Name, Cell>,
    tags: map<Name, Stamped<Option<Val>>>,
    slots: map<Slot, Stamped<Val>>,
    features: Option<Versioned>,
    lastMetric: Option<Key>,
    create: Option<Stamped<Val>>,
    rewinds: set<Marker>,
    stale: bool)

  function NewFold(rewinds: set<Marker>): Fold {
    Fold(map[], map[], map[], map[], None, None, None, rewinds, false)
  }

  function Learned(f: Fold, m: Marker): Fold {
    if m in f.rewinds then f else f.(rewinds := f.rewinds + {m}, stale := true)
  }

  // Keeping the latest.

  function Latest<V>(held: Option<Stamped<V>>, value: V, k: Key): Option<Stamped<V>> {
    if held.Some? && Before(k, held.value.key) then held else Some(Stamped(value, k))
  }

  function Least<V>(held: Option<Stamped<V>>, value: V, k: Key): Option<Stamped<V>> {
    if held.Some? && !Before(k, held.value.key) then held else Some(Stamped(value, k))
  }

  function At<N, V>(m: map<N, V>, n: N): Option<V> { if n in m then Some(m[n]) else None }

  /** Every write of an entry kept where it is the latest. */
  function KeepAll<N, V>(held: map<N, Stamped<V>>, writes: map<N, V>, k: Key): map<N, Stamped<V>> {
    map n | n in held.Keys + writes.Keys ::
      if n in writes then Latest(At(held, n), writes[n], k).value else held[n]
  }

  // Metrics.

  function Lower(a: Option<real>, b: real): Option<real> {
    if a.Some? && a.value <= b then a else Some(b)
  }

  function Higher(a: Option<real>, b: real): Option<real> {
    if a.Some? && a.value >= b then a else Some(b)
  }

  function Widened(s: Seen, v: Num): Seen
    requires s.Many?
  {
    if v.NonFinite? then s else Many(Lower(s.low, v.r), Higher(s.high, v.r), s.n + 1, s.sum + v.r)
  }

  const NOTHING_SEEN := Many(None, None, 0, 0.0)

  /** A logged value: a same-named param's number gives way, the bounds widen. */
  function LogValue(c: Cell, v: Num, k: Key): Cell {
    match c.seen
    case None => Cell(Some(Stamped(v, k)), Some(Once(v)), c.first)
    case Some(Once(only)) =>
      var first := if c.first.None? && c.latest.Some? then Some(Stamped(only, c.latest.value.key)) else c.first;
      Cell(Latest(c.latest, v, k), Some(Widened(Widened(NOTHING_SEEN, only), v)), Least(first, v, k))
    case Some(Many(_, _, _, _)) =>
      Cell(Latest(c.latest, v, k), Some(Widened(c.seen.value, v)), Least(c.first, v, k))
  }

  /** A param's number: kept unless the name was logged as a metric. */
  function ParamNumber(c: Cell, r: real, k: Key): Cell {
    if c.seen.Some? then c else c.(latest := Latest(c.latest, Finite(r), k))
  }

  function CellAt(cells: map<Name, Cell>, n: Name): Cell { if n in cells then cells[n] else NO_CELL }

  function LogAll(cells: map<Name, Cell>, values: map<Name, Num>, k: Key): map<Name, Cell> {
    map n | n in cells.Keys + values.Keys ::
      if n in values then LogValue(CellAt(cells, n), values[n], k) else cells[n]
  }

  function Numbers(params: map<Name, Param>): map<Name, real> {
    map n | n in params && params[n].number.Some? :: params[n].number.value
  }

  function NumbersAll(cells: map<Name, Cell>, numbers: map<Name, real>, k: Key): map<Name, Cell> {
    map n | n in cells.Keys + numbers.Keys ::
      if n in numbers then ParamNumber(CellAt(cells, n), numbers[n], k) else cells[n]
  }

  // One entry.

  /** The tag writes of an entry; a removal is a write too. */
  function TagWrites(kind: Kind): map<Name, Option<Val>> {
    match kind
    case Create(_, seeded, _) => map n | n in seeded :: Some(seeded[n])
    case Tags(changed, removed) =>
      map n | n in changed.Keys + removed :: if n in removed then None else Some(changed[n])
    case _ => map[]
  }

  function ParamWrites(kind: Kind): map<Name, Param> {
    match kind
    case Create(params, _, _) => params
    case Params(params) => params
    case _ => map[]
  }

  function SlotWrites(kind: Kind): map<Slot, Val> {
    if kind.Fields? then kind.writes else map[]
  }

  function MetricWrites(kind: Kind): map<Name, Num> {
    if kind.Metrics? then kind.values else map[]
  }

  function KeepFeatures(held: Option<Versioned>, kind: Kind, k: Key): Option<Versioned> {
    if !kind.Features? then held
    else if held.Some? && (held.value.version > kind.version
                           || (held.value.version == kind.version && Before(k, held.value.key))) then held
    else Some(Versioned(kind.version, kind.facts, k))
  }

  function KeepLastMetric(held: Option<Key>, kind: Kind, k: Key): Option<Key> {
    if !kind.Metrics? || (held.Some? && Before(k, held.value)) then held else Some(k)
  }

  function KeepCreate(held: Option<Stamped<Val>>, kind: Kind, k: Key): Option<Stamped<Val>> {
    if kind.Create? then Least(held, kind.note, k) else held
  }

  /** A visible entry folded in. */
  function Folded(f: Fold, kind: Kind, k: Key): Fold {
    f.(params := KeepAll(f.params, ParamWrites(kind), k),
       cells := LogAll(NumbersAll(f.cells, Numbers(ParamWrites(kind)), k), MetricWrites(kind), k),
       tags := KeepAll(f.tags, TagWrites(kind), k),
       slots := KeepAll(f.slots, SlotWrites(kind), k),
       features := KeepFeatures(f.features, kind, k),
       lastMetric := KeepLastMetric(f.lastMetric, kind, k),
       create := KeepCreate(f.create, kind, k))
  }

  function Applied(f: Fold, x: Keyed): Fold {
    if IsMarker(x) then Learned(f, MarkerOf(x))
    else if x.entry.kind.Rewind? || IsRewound(f.rewinds, x) then f
    else Folded(f, x.entry.kind, x.key)
  }

  /** The entries folded in, in the order given. */
  function AppliedAll(f: Fold, xs: seq<Keyed>): Fold {
    if xs == [] then f else Applied(AppliedAll(f, xs[..|xs| - 1]), xs[|xs| - 1])
  }

  // -------------------------------------------------------- two entries commute

  /** A metric logged once holds its value and key; logged oftener, it has a first value. */
  predicate CellOk(c: Cell) {
    && (c.seen.None? ==> c.first.None?)
    && (c.seen.Some? && c.seen.value.Once? ==> c.first.None? && c.latest.Some?
                                               && c.latest.value.value == c.seen.value.only)
    && (c.seen.Some? && c.seen.value.Many? ==> c.first.Some? && c.latest.Some?)
  }

  /** No field was written at `k` yet. */
  predicate Clear<V>(held: Option<Stamped<V>>, k: Key) { held.Some? ==> held.value.key != k }

  predicate CellClear(c: Cell, k: Key) { Clear(c.latest, k) && Clear(c.first, k) }

  ghost predicate MapClear<N, V>(held: map<N, Stamped<V>>, k: Key) {
    forall n :: n in held ==> held[n].key != k
  }

  ghost predicate FoldClear(f: Fold, k: Key) {
    && MapClear(f.params, k) && MapClear(f.tags, k) && MapClear(f.slots, k)
    && (forall n :: n in f.cells ==> CellClear(f.cells[n], k))
    && (f.features.Some? ==> f.features.value.key != k)
    && (f.lastMetric.Some? ==> f.lastMetric.value != k)
    && Clear(f.create, k)
  }

  ghost predicate CellsOk(f: Fold) {
    forall n :: n in f.cells ==> CellOk(f.cells[n])
  }

  lemma LatestCommutes<V>(held: Option<Stamped<V>>, v: V, k: Key, w: V, l: Key)
    requires k != l && Clear(held, k) && Clear(held, l)
    ensures Latest(Latest(held, v, k), w, l) == Latest(Latest(held, w, l), v, k)
  {
  }

  lemma KeepAllCommutes<N, V>(held: map<N, Stamped<V>>, a: map<N, V>, k: Key, b: map<N, V>, l: Key)
    requires k != l && MapClear(held, k) && MapClear(held, l)
    ensures KeepAll(KeepAll(held, a, k), b, l) == KeepAll(KeepAll(held, b, l), a, k)
  {
    var ab, ba := KeepAll(KeepAll(held, a, k), b, l), KeepAll(KeepAll(held, b, l), a, k);
    forall n | n in ab ensures ab[n] == ba[n] {
      if n in a && n in b {
        LatestCommutes(At(held, n), a[n], k, b[n], l);
      }
    }
    assert ab.Keys == ba.Keys;
  }

  lemma LeastCommutes<V>(held: Option<Stamped<V>>, v: V, k: Key, w: V, l: Key)
    requires k != l && Clear(held, k) && Clear(held, l)
    ensures Least(Least(held, v, k), w, l) == Least(Least(held, w, l), v, k)
  {
  }

  lemma WidenCommutes(s: Seen, v: Num, w: Num)
    requires s.Many?
    ensures Widened(Widened(s, v), w) == Widened(Widened(s, w), v)
  {
  }

  lemma LogValuesCommute(c: Cell, v: Num, k: Key, w: Num, l: Key)
    requires k != l && CellOk(c) && CellClear(c, k) && CellClear(c, l)
    ensures LogValue(LogValue(c, v, k), w, l) == LogValue(LogValue(c, w, l), v, k)
  {
    match c.seen
    case None =>
      WidenCommutes(NOTHING_SEEN, v, w);
    case Some(Once(only)) =>
      LatestCommutes(c.latest, v, k, w, l);
      LeastCommutes(Some(Stamped(only, c.latest.value.key)), v, k, w, l);
      WidenCommutes(Widened(NOTHING_SEEN, only), v, w);
    case Some(Many(_, _, _, _)) =>
      LatestCommutes(c.latest, v, k, w, l);
      LeastCommutes(c.first, v, k, w, l);
      WidenCommutes(c.seen.value, v, w);
  }

  lemma NumbersCommute(c: Cell, r: real, k: Key, s: real, l: Key)
    requires k != l && CellOk(c) && CellClear(c, k) && CellClear(c, l)
    ensures ParamNumber(ParamNumber(c, r, k), s, l) == ParamNumber(ParamNumber(c, s, l), r, k)
  {
  }

  /** A param never stands in a logged metric's way, whichever came first. */
  lemma NumberGivesWay(c: Cell, r: real, k: Key, v: Num, l: Key)
    requires CellOk(c)
    ensures LogValue(ParamNumber(c, r, k), v, l) == ParamNumber(LogValue(c, v, l), r, k)
  {
  }

  /** What one entry does to one metric name's cell. */
  function CellStep(c: Cell, kind: Kind, n: Name, k: Key): Cell {
    var numbers := Numbers(ParamWrites(kind));
    if n in MetricWrites(kind) then LogValue(c, MetricWrites(kind)[n], k)
    else if n in numbers then ParamNumber(c, numbers[n], k)
    else c
  }

  lemma CellStepsCommute(c: Cell, a: Kind, k: Key, b: Kind, l: Key, n: Name)
    requires k != l && CellOk(c) && CellClear(c, k) && CellClear(c, l)
    ensures CellStep(CellStep(c, a, n, k), b, n, l) == CellStep(CellStep(c, b, n, l), a, n, k)
  {
    var p, q := Numbers(ParamWrites(a)), Numbers(ParamWrites(b));
    if n in MetricWrites(a) && n in MetricWrites(b) {
      LogValuesCommute(c, MetricWrites(a)[n], k, MetricWrites(b)[n], l);
    } else if n in MetricWrites(a) && n in q {
      NumberGivesWay(c, q[n], l, MetricWrites(a)[n], k);
    } else if n in p && n in MetricWrites(b) {
      NumberGivesWay(c, p[n], k, MetricWrites(b)[n], l);
    } else if n in p && n in q {
      NumbersCommute(c, p[n], k, q[n], l);
    }
  }

  lemma CellsAfter(f: Fold, kind: Kind, k: Key, n: Name)
    ensures CellAt(Folded(f, kind, k).cells, n) == CellStep(CellAt(f.cells, n), kind, n, k)
    ensures n in Folded(f, kind, k).cells
            <==> n in f.cells || n in MetricWrites(kind) || n in Numbers(ParamWrites(kind))
  {
  }

  ghost predicate SameAt(a: map<Name, Cell>, b: map<Name, Cell>, n: Name) {
    (n in a <==> n in b) && CellAt(a, n) == CellAt(b, n)
  }

  lemma CellCommutes(f: Fold, a: Kind, k: Key, b: Kind, l: Key, n: Name)
    requires k != l && CellOk(CellAt(f.cells, n))
    requires CellClear(CellAt(f.cells, n), k) && CellClear(CellAt(f.cells, n), l)
    ensures SameAt(Folded(Folded(f, a, k), b, l).cells, Folded(Folded(f, b, l), a, k).cells, n)
  {
    CellsAfter(f, a, k, n);
    CellsAfter(f, b, l, n);
    CellsAfter(Folded(f, a, k), b, l, n);
    CellsAfter(Folded(f, b, l), a, k, n);
    CellStepsCommute(CellAt(f.cells, n), a, k, b, l, n);
  }

  lemma CellsCommute(f: Fold, a: Kind, k: Key, b: Kind, l: Key)
    requires k != l && CellsOk(f) && FoldClear(f, k) && FoldClear(f, l)
    ensures Folded(Folded(f, a, k), b, l).cells == Folded(Folded(f, b, l), a, k).cells
  {
    var ab, ba := Folded(Folded(f, a, k), b, l).cells, Folded(Folded(f, b, l), a, k).cells;
    forall n ensures SameAt(ab, ba, n) {
      CellCommutes(f, a, k, b, l, n);
    }
    SameCells(ab, ba);
  }

  lemma SameCells(a: map<Name, Cell>, b: map<Name, Cell>)
    requires forall n :: SameAt(a, b, n)
    ensures a == b
  {
    forall n ensures n in a <==> n in b {
      assert SameAt(a, b, n);
    }
    forall n | n in a ensures a[n] == b[n] {
      assert SameAt(a, b, n);
    }
  }

  lemma FoldedCommutes(f: Fold, a: Kind, k: Key, b: Kind, l: Key)
    requires k != l && CellsOk(f) && FoldClear(f, k) && FoldClear(f, l)
    ensures Folded(Folded(f, a, k), b, l) == Folded(Folded(f, b, l), a, k)
  {
    CellsCommute(f, a, k, b, l);
    KeepAllCommutes(f.params, ParamWrites(a), k, ParamWrites(b), l);
    KeepAllCommutes(f.tags, TagWrites(a), k, TagWrites(b), l);
    KeepAllCommutes(f.slots, SlotWrites(a), k, SlotWrites(b), l);
  }

  lemma FoldedKeepsOk(f: Fold, kind: Kind, k: Key)
    requires CellsOk(f)
    ensures CellsOk(Folded(f, kind, k))
  {
    var g := Folded(f, kind, k);
    forall n | n in g.cells ensures CellOk(g.cells[n]) {
      CellsAfter(f, kind, k, n);
    }
  }

  lemma FoldedStaysClear(f: Fold, kind: Kind, k: Key, l: Key)
    requires k != l && FoldClear(f, l) && CellsOk(f)
    ensures FoldClear(Folded(f, kind, k), l)
  {
    var g := Folded(f, kind, k);
    forall n | n in g.cells ensures CellClear(g.cells[n], l) {
      CellsAfter(f, kind, k, n);
    }
  }

  // ------------------------------------------------------------ the order is moot

  ghost predicate DistinctKeys(xs: seq<Keyed>) {
    forall i, j :: 0 <= i < j < |xs| ==> xs[i].key != xs[j].key
  }

  /** Nothing of `f` was written at a key outside `xs`, and it knows its rewinds. */
  ghost predicate Untouched(f: Fold, xs: seq<Keyed>, rewinds: set<Marker>) {
    && CellsOk(f) && f.rewinds == rewinds && !f.stale
    && forall k :: (forall i :: 0 <= i < |xs| ==> xs[i].key != k) ==> FoldClear(f, k)
  }

  lemma {:induction false} FoldUntouched(rewinds: set<Marker>, xs: seq<Keyed>)
    requires Markers(xs) <= rewinds
    ensures Untouched(AppliedAll(NewFold(rewinds), xs), xs, rewinds)
  {
    if xs != [] {
      var before, x := xs[..|xs| - 1], xs[|xs| - 1];
      assert Markers(before) <= Markers(xs);
      FoldUntouched(rewinds, before);
      var f := AppliedAll(NewFold(rewinds), before);
      if IsMarker(x) {
        assert MarkerOf(x) in Markers(xs);
        assert Applied(f, x) == f;
      }
      FoldedKeepsOk(f, x.entry.kind, x.key);
      forall k | forall i :: 0 <= i < |xs| ==> xs[i].key != k ensures FoldClear(Applied(f, x), k) {
        assert xs[|xs| - 1].key != k;
        FoldedStaysClear(f, x.entry.kind, x.key, k);
      }
    }
  }

  /** The last two entries swapped. */
  lemma SwapLast(rewinds: set<Marker>, xs: seq<Keyed>, x: Keyed, y: Keyed)
    requires Markers(xs + [x, y]) <= rewinds && DistinctKeys(xs + [x, y])
    ensures AppliedAll(NewFold(rewinds), xs + [x] + [y]) == AppliedAll(NewFold(rewinds), xs + [y] + [x])
  {
    var all := xs + [x, y];
    forall m | m in Markers(xs) ensures m in Markers(all) {
      var i :| 0 <= i < |xs| && IsMarker(xs[i]) && MarkerOf(xs[i]) == m;
      assert all[i] == xs[i];
    }
    assert all[|xs|] == x && all[|xs| + 1] == y;
    FoldUntouched(rewinds, xs);
    var f := AppliedAll(NewFold(rewinds), xs);
    assert (xs + [x] + [y])[..|xs| + 1] == xs + [x] && (xs + [y] + [x])[..|xs| + 1] == xs + [y];
    assert (xs + [x])[..|xs|] == xs && (xs + [y])[..|xs|] == xs;
    forall i | 0 <= i < |xs| ensures xs[i].key != x.key && xs[i].key != y.key {
      assert all[i] == xs[i];
    }
    KnownMarkersStay(f, x);
    KnownMarkersStay(f, y);
    FoldedCommutes(f, x.entry.kind, x.key, y.entry.kind, y.key);
  }

  lemma KnownMarkersStay(f: Fold, x: Keyed)
    ensures IsMarker(x) && MarkerOf(x) in f.rewinds ==> Applied(f, x) == f
    ensures !IsMarker(x) ==> Applied(f, x).rewinds == f.rewinds
  {
  }

  /** An entry moved to the end. */
  lemma {:induction false} MoveLast(rewinds: set<Marker>, xs: seq<Keyed>, x: Keyed, ys: seq<Keyed>)
    requires Markers(xs + [x] + ys) <= rewinds && DistinctKeys(xs + [x] + ys)
    ensures AppliedAll(NewFold(rewinds), xs + [x] + ys) == AppliedAll(NewFold(rewinds), xs + ys + [x])
  {
    if ys == [] {
      assert xs + [x] + ys == xs + [x] && xs + ys + [x] == xs + [x];
    } else {
      var init, y := ys[..|ys| - 1], ys[|ys| - 1];
      var all, shorter := xs + [x] + ys, xs + [x] + init;
      assert all == shorter + [y] && all[..|all| - 1] == shorter;
      assert forall i :: 0 <= i < |shorter| ==> shorter[i] == all[i];
      SubMarkers(shorter, all);
      MoveLast(rewinds, xs, x, init);
      var moved := xs + init + [x];
      assert xs + init + [x, y] == moved + [y] && (moved + [y])[..|moved|] == moved;
      assert xs + ys + [x] == (xs + init) + [y] + [x];
      assert ys == init + [y];
      Rearranged(xs, x, init, y);
      SubMarkers(xs + init + [x, y], all);
      SwapLast(rewinds, xs + init, x, y);
    }
  }

  lemma SubMarkers(xs: seq<Keyed>, ys: seq<Keyed>)
    requires forall i :: 0 <= i < |xs| ==> xs[i] in ys
    ensures Markers(xs) <= Markers(ys)
  {
    forall m | m in Markers(xs) ensures m in Markers(ys) {
      var i :| 0 <= i < |xs| && IsMarker(xs[i]) && MarkerOf(xs[i]) == m;
      var j :| 0 <= j < |ys| && ys[j] == xs[i];
    }
  }

  lemma Rearranged(xs: seq<Keyed>, x: Keyed, ys: seq<Keyed>, y: Keyed)
    requires DistinctKeys(xs + [x] + (ys + [y]))
    ensures DistinctKeys(xs + ys + [x, y])
    ensures forall i :: 0 <= i < |xs + ys + [x, y]| ==> (xs + ys + [x, y])[i] in xs + [x] + (ys + [y])
  {
    var from, to := xs + [x] + (ys + [y]), xs + ys + [x, y];
    var n, m := |xs|, |ys|;
    forall i | 0 <= i < |to|
      ensures to[i] == from[if i < n then i else if i < n + m then i + 1 else if i == n + m then n else i]
    {
    }
  }

  lemma TakeOut(ys: seq<Keyed>, i: nat) returns (left: seq<Keyed>, right: seq<Keyed>)
    requires i < |ys| && DistinctKeys(ys)
    ensures ys == left + [ys[i]] + right && DistinctKeys(left + right)
    ensures multiset(ys) == multiset(left + right) + multiset{ys[i]}
    ensures Markers(left + right) <= Markers(ys)
  {
    left, right := ys[..i], ys[i + 1..];
    var rest := left + right;
    assert ys == left + [ys[i]] + right;
    forall a | 0 <= a < |rest| ensures rest[a] == ys[if a < i then a else a + 1] {
    }
    SubMarkers(rest, ys);
  }

  /** The fold depends on the entries, not on the order they came in. */
  lemma {:induction false} FoldIgnoresOrder(rewinds: set<Marker>, xs: seq<Keyed>, ys: seq<Keyed>)
    requires multiset(xs) == multiset(ys) && DistinctKeys(ys) && Markers(ys) <= rewinds
    ensures AppliedAll(NewFold(rewinds), xs) == AppliedAll(NewFold(rewinds), ys)
    decreases |xs|
  {
    if xs == [] {
      assert |multiset(ys)| == 0;
    } else {
      var before, x := xs[..|xs| - 1], xs[|xs| - 1];
      assert xs == before + [x] && x in multiset(xs);
      var i :| 0 <= i < |ys| && ys[i] == x;
      var left, right := TakeOut(ys, i);
      MoveLast(rewinds, left, x, right);
      LastApplied(NewFold(rewinds), left + right, x);
      SameRest(xs, before, left + right, x, ys);
      FoldIgnoresOrder(rewinds, before, left + right);
    }
  }

  lemma LastApplied(f: Fold, xs: seq<Keyed>, x: Keyed)
    ensures AppliedAll(f, xs + [x]) == Applied(AppliedAll(f, xs), x)
  {
    assert (xs + [x])[..|xs|] == xs;
  }

  lemma SameRest(xs: seq<Keyed>, before: seq<Keyed>, rest: seq<Keyed>, x: Keyed, ys: seq<Keyed>)
    requires xs == before + [x] && multiset(ys) == multiset(rest) + multiset{x} && multiset(xs) == multiset(ys)
    ensures multiset(before) == multiset(rest)
  {
    assert multiset(xs) == multiset(before) + multiset{x};
    assert multiset(before) == multiset(xs) - multiset{x};
  }

  // ---------------------------------------------------- chunks and interleavings

  /** One entry arriving from a writer's log. */
  datatype Arrival = Arrival(writer: int, ts: int, entry: Entry)

  /** A writer's log: its arrivals, in order. */
  function LogOf(arrivals: seq<Arrival>, writer: int): seq<Arrival> {
    if arrivals == [] then []
    else
      var rest, a := LogOf(arrivals[..|arrivals| - 1], writer), arrivals[|arrivals| - 1];
      if a.writer == writer then rest + [a] else rest
  }

  /** A writer's log is all that arrived of it and nothing of another. */
  lemma {:induction false} LogOfHolds(arrivals: seq<Arrival>, writer: int, a: Arrival)
    ensures multiset(LogOf(arrivals, writer))[a] == if a.writer == writer then multiset(arrivals)[a] else 0
  {
    if arrivals != [] {
      LogOfHolds(arrivals[..|arrivals| - 1], writer, a);
      assert arrivals == arrivals[..|arrivals| - 1] + [arrivals[|arrivals| - 1]];
    }
  }

  /** The arrivals keyed, each by its place in its writer's log. */
  function KeyedAll(arrivals: seq<Arrival>): seq<Keyed> {
    if arrivals == [] then []
    else
      var before, a := arrivals[..|arrivals| - 1], arrivals[|arrivals| - 1];
      KeyedAll(before) + [Keyed(a.entry, Key(a.ts, a.writer, |LogOf(before, a.writer)|))]
  }

  /** An entry is among the keyed arrivals once if its writer's log has it there, else never. */
  lemma {:induction false} KeyedOnce(arrivals: seq<Arrival>, x: Keyed)
    ensures var log := LogOf(arrivals, x.key.writer);
            multiset(KeyedAll(arrivals))[x] ==
            if x.key.position < |log| && log[x.key.position] == Arrival(x.key.writer, x.key.ts, x.entry) then 1 else 0
  {
    if arrivals != [] {
      var before, a := arrivals[..|arrivals| - 1], arrivals[|arrivals| - 1];
      KeyedOnce(before, x);
      var last := Keyed(a.entry, Key(a.ts, a.writer, |LogOf(before, a.writer)|));
      assert multiset(KeyedAll(arrivals)) == multiset(KeyedAll(before)) + multiset{last};
    }
  }

  lemma {:induction false} KeyedDistinct(arrivals: seq<Arrival>)
    ensures DistinctKeys(KeyedAll(arrivals))
    ensures forall i :: 0 <= i < |KeyedAll(arrivals)| ==>
      KeyedAll(arrivals)[i].key.position < |LogOf(arrivals, KeyedAll(arrivals)[i].key.writer)|
  {
    if arrivals != [] {
      KeyedDistinct(arrivals[..|arrivals| - 1]);
    }
  }

  lemma SameLogsSameKeyed(xs: seq<Arrival>, ys: seq<Arrival>)
    requires forall w :: LogOf(xs, w) == LogOf(ys, w)
    ensures multiset(KeyedAll(xs)) == multiset(KeyedAll(ys))
  {
    forall x ensures multiset(KeyedAll(xs))[x] == multiset(KeyedAll(ys))[x] {
      KeyedOnce(xs, x);
      KeyedOnce(ys, x);
    }
  }

  /** However the writers' logs are cut and interleaved, they fold to the same. */
  lemma FoldIgnoresChunks(rewinds: set<Marker>, xs: seq<Arrival>, ys: seq<Arrival>)
    requires forall w :: LogOf(xs, w) == LogOf(ys, w)
    requires Markers(KeyedAll(ys)) <= rewinds
    ensures AppliedAll(NewFold(rewinds), KeyedAll(xs)) == AppliedAll(NewFold(rewinds), KeyedAll(ys))
  {
    SameLogsSameKeyed(xs, ys);
    KeyedDistinct(ys);
    FoldIgnoresOrder(rewinds, KeyedAll(xs), KeyedAll(ys));
  }

  // ------------------------------------------------------------- late rewinds

  /** The fold of the entries with every rewind among them known up front. */
  function Scratch(xs: seq<Keyed>): Fold { AppliedAll(NewFold(Markers(xs)), xs) }

  /** What a record keeps after folding `xs` from `f`: a stale fold is folded again,
      from the start, knowing what it learned. */
  function Refolded(f: Fold, xs: seq<Keyed>): Fold {
    if f.stale then AppliedAll(NewFold(f.rewinds), xs) else f
  }

  lemma {:induction false} RewindsLearned(rewinds: set<Marker>, xs: seq<Keyed>)
    ensures var f := AppliedAll(NewFold(rewinds), xs);
            f.rewinds == rewinds + Markers(xs) && (f.stale <==> !(Markers(xs) <= rewinds))
  {
    if xs != [] {
      var before, x := xs[..|xs| - 1], xs[|xs| - 1];
      RewindsLearned(rewinds, before);
      MarkersOfLast(xs);
    } else {
      assert Markers(xs) == {};
    }
  }

  lemma MarkersOfLast(xs: seq<Keyed>)
    requires xs != []
    ensures var x := xs[|xs| - 1];
            Markers(xs) == Markers(xs[..|xs| - 1]) + (if IsMarker(x) then {MarkerOf(x)} else {})
  {
    var before, x := xs[..|xs| - 1], xs[|xs| - 1];
    SubMarkers(before, xs);
    forall m | m in Markers(xs) ensures m in Markers(before) + (if IsMarker(x) then {MarkerOf(x)} else {}) {
      var i :| 0 <= i < |xs| && IsMarker(xs[i]) && MarkerOf(xs[i]) == m;
      if i < |before| {
        assert before[i] == xs[i];
      }
    }
  }

  /** Folding in any order from what an earlier fold of the same log knew, then refolding
      once in any order if stale, is folding from scratch; the one refold is not stale. */
  lemma UpdatedIsScratch(known: set<Marker>, xs: seq<Keyed>, again: seq<Keyed>)
    requires multiset(xs) == multiset(again) && DistinctKeys(again)
    requires known <= Markers(again)
    ensures Refolded(AppliedAll(NewFold(known), xs), again) == Scratch(again)
    ensures !Scratch(again).stale
  {
    SameMarkers(xs, again);
    RewindsLearned(known, xs);
    RewindsLearned(Markers(again), again);
    FoldIgnoresOrder(Markers(again), xs, again);
    assert known + Markers(xs) == Markers(again);
    if Markers(xs) <= known {
      assert known == Markers(again);
    }
  }

  lemma SameMarkers(xs: seq<Keyed>, ys: seq<Keyed>)
    requires multiset(xs) == multiset(ys)
    ensures Markers(xs) == Markers(ys)
  {
    forall i | 0 <= i < |xs| ensures xs[i] in ys {
      assert xs[i] in multiset(ys);
    }
    forall i | 0 <= i < |ys| ensures ys[i] in xs {
      assert ys[i] in multiset(xs);
    }
    SubMarkers(xs, ys);
    SubMarkers(ys, xs);
  }

  // -------------------------------------------------------- what each field holds

  predicate Visible(rewinds: set<Marker>, x: Keyed) {
    !x.entry.kind.Rewind? && !IsRewound(rewinds, x)
  }

  /** Of the entries of a log just those with a step are hidden that a rewind to a lower one
      follows in the merged order: by timestamp, then writer, then position. */
  lemma {:induction false} HiddenExactly(xs: seq<Keyed>, i: nat)
    requires i < |xs| && !xs[i].entry.kind.Rewind?
    ensures !Visible(Markers(xs), xs[i])
            <==> xs[i].entry.step.Some? && exists j :: 0 <= j < |xs| && RewindAfter(xs, i, j)
  {
    if !Visible(Markers(xs), xs[i]) {
      var m :| m in Markers(xs) && m.step < xs[i].entry.step.value && Before(xs[i].key, m.key);
      var j :| 0 <= j < |xs| && IsMarker(xs[j]) && MarkerOf(xs[j]) == m;
      assert RewindAfter(xs, i, j);
    }
    if j :| xs[i].entry.step.Some? && 0 <= j < |xs| && RewindAfter(xs, i, j) {
      assert MarkerOf(xs[j]) in Markers(xs);
    }
  }

  /** Entry `j` is a rewind to a step lower than that of entry `i`, and comes after it. */
  predicate RewindAfter(xs: seq<Keyed>, i: nat, j: int)
    requires i < |xs| && 0 <= j < |xs| && xs[i].entry.step.Some?
  {
    var x, r := xs[i], xs[j];
    && r.entry.kind.Rewind? && r.entry.step.Some? && r.entry.step.value < x.entry.step.value
    && (if x.key.ts != r.key.ts then x.key.ts < r.key.ts
        else if x.key.writer != r.key.writer then x.key.writer < r.key.writer
        else x.key.position < r.key.position)
  }

  /** `held` is the write with the greatest key among the visible entries `w` finds one in. */
  ghost predicate IsGreatest<V>(held: Option<Stamped<V>>, rewinds: set<Marker>, xs: seq<Keyed>, w: Keyed -> Option<V>) {
    match held
    case None => forall i :: 0 <= i < |xs| && Visible(rewinds, xs[i]) ==> w(xs[i]).None?
    case Some(s) =>
      && (exists i :: 0 <= i < |xs| && Visible(rewinds, xs[i]) && w(xs[i]) == Some(s.value) && xs[i].key == s.key)
      && (forall i :: 0 <= i < |xs| && Visible(rewinds, xs[i]) && w(xs[i]).Some? ==> !Before(s.key, xs[i].key))
  }

  lemma GreatestStep<V>(held: Option<Stamped<V>>, rewinds: set<Marker>, xs: seq<Keyed>, w: Keyed -> Option<V>)
    requires xs != [] && IsGreatest(held, rewinds, xs[..|xs| - 1], w)
    ensures var x := xs[|xs| - 1];
            IsGreatest(if Visible(rewinds, x) && w(x).Some? then Latest(held, w(x).value, x.key) else held,
                       rewinds, xs, w)
  {
    var before, x := xs[..|xs| - 1], xs[|xs| - 1];
    assert forall i :: 0 <= i < |before| ==> before[i] == xs[i];
    var now := if Visible(rewinds, x) && w(x).Some? then Latest(held, w(x).value, x.key) else held;
    if now.Some? {
      if now == held {
        var i :| 0 <= i < |before| && Visible(rewinds, before[i]) && w(before[i]) == Some(held.value.value)
                 && before[i].key == held.value.key;
        assert xs[i] == before[i];
      } else {
        assert xs[|xs| - 1] == x;
      }
    }
  }

  /** The rewinds a fold started with, `xs` holding no other, are those it ends with. */
  lemma {:induction false} RewindsKnown(rewinds: set<Marker>, xs: seq<Keyed>)
    requires Markers(xs) <= rewinds
    ensures AppliedAll(NewFold(rewinds), xs).rewinds == rewinds
  {
    RewindsLearned(rewinds, xs);
    assert rewinds + Markers(xs) == rewinds;
  }

  /** The fold before its last entry, and that entry. */
  lemma LastStep(rewinds: set<Marker>, xs: seq<Keyed>)
    requires xs != [] && Markers(xs) <= rewinds
    ensures var before, x := xs[..|xs| - 1], xs[|xs| - 1];
            var f := AppliedAll(NewFold(rewinds), before);
            && Markers(before) <= rewinds
            && AppliedAll(NewFold(rewinds), xs) == if Visible(rewinds, x) then Folded(f, x.entry.kind, x.key) else f
  {
    MarkersOfLast(xs);
    RewindsKnown(rewinds, xs[..|xs| - 1]);
  }

  // What an entry says of one name, read off the entry.

  function TagWrite(n: Name): Keyed -> Option<Option<Val>> {
    (x: Keyed) => match x.entry.kind
                  case Tags(changed, removed) =>
                    if n in removed then Some(None) else if n in changed then Some(Some(changed[n])) else None
                  case Create(_, seeded, _) => if n in seeded then Some(Some(seeded[n])) else None
                  case _ => None
  }

  function ParamWrite(n: Name): Keyed -> Option<Param> {
    (x: Keyed) => match x.entry.kind
                  case Create(params, _, _) => if n in params then Some(params[n]) else None
                  case Params(params) => if n in params then Some(params[n]) else None
                  case _ => None
  }

  function SlotWrite(slot: Slot): Keyed -> Option<Val> {
    (x: Keyed) => if x.entry.kind.Fields? && slot in x.entry.kind.writes then Some(x.entry.kind.writes[slot]) else None
  }

  function MetricWrite(n: Name): Keyed -> Option<Num> {
    (x: Keyed) => if x.entry.kind.Metrics? && n in x.entry.kind.values then Some(x.entry.kind.values[n]) else None
  }

  /** The number of a param. */
  function NumberWrite(n: Name): Keyed -> Option<Num> {
    (x: Keyed) => match x.entry.kind
                  case Create(params, _, _) =>
                    if n in params && params[n].number.Some? then Some(Finite(params[n].number.value)) else None
                  case Params(params) =>
                    if n in params && params[n].number.Some? then Some(Finite(params[n].number.value)) else None
                  case _ => None
  }

  /** A tag holds its latest write that no rewind hides, a removal included. */
  lemma {:induction false} TagIsLatest(rewinds: set<Marker>, xs: seq<Keyed>, n: Name)
    requires Markers(xs) <= rewinds
    ensures IsGreatest(At(AppliedAll(NewFold(rewinds), xs).tags, n), rewinds, xs, TagWrite(n))
  {
    if xs != [] {
      LastStep(rewinds, xs);
      TagIsLatest(rewinds, xs[..|xs| - 1], n);
      GreatestStep(At(AppliedAll(NewFold(rewinds), xs[..|xs| - 1]).tags, n), rewinds, xs, TagWrite(n));
    }
  }

  /** The tags a fold shows: those not removed. */
  function ShownTags(f: Fold): map<Name, Val> {
    map n | n in f.tags && f.tags[n].value.Some? :: f.tags[n].value.value
  }

  predicate SetsTag(kind: Kind, n: Name, v: Val) {
    || (kind.Tags? && n in kind.changed && n !in kind.removed && kind.changed[n] == v)
    || (kind.Create? && n in kind.seeded && kind.seeded[n] == v)
  }

  predicate RemovesTag(kind: Kind, n: Name) { kind.Tags? && n in kind.removed }

  predicate NamesTag(kind: Kind, n: Name) {
    (kind.Tags? && (n in kind.changed || n in kind.removed)) || (kind.Create? && n in kind.seeded)
  }

  /** Of the visible entries that name the tag, none has a later key than entry `i`. */
  ghost predicate LatestNaming(rewinds: set<Marker>, xs: seq<Keyed>, n: Name, i: int) {
    && 0 <= i < |xs| && Visible(rewinds, xs[i]) && NamesTag(xs[i].entry.kind, n)
    && forall j :: 0 <= j < |xs| && Visible(rewinds, xs[j]) && NamesTag(xs[j].entry.kind, n) ==>
         !Before(xs[i].key, xs[j].key)
  }

  /** A tag is shown as the latest entry that names it set it, and not at all when that one
      removed it, or none does. */
  lemma TagShown(rewinds: set<Marker>, xs: seq<Keyed>, n: Name)
    requires Markers(xs) <= rewinds
    ensures var tags := ShownTags(AppliedAll(NewFold(rewinds), xs));
            if n in tags then exists i :: LatestNaming(rewinds, xs, n, i) && SetsTag(xs[i].entry.kind, n, tags[n])
            else || (forall i :: 0 <= i < |xs| && Visible(rewinds, xs[i]) ==> !NamesTag(xs[i].entry.kind, n))
                 || (exists i :: LatestNaming(rewinds, xs, n, i) && RemovesTag(xs[i].entry.kind, n))
  {
    TagIsLatest(rewinds, xs, n);
    hide Visible, Before;
    var held, w := At(AppliedAll(NewFold(rewinds), xs).tags, n), TagWrite(n);
    forall i | 0 <= i < |xs| ensures w(xs[i]).Some? <==> NamesTag(xs[i].entry.kind, n) {
    }
    if held.Some? {
      var i :| 0 <= i < |xs| && Visible(rewinds, xs[i]) && w(xs[i]) == Some(held.value.value) && xs[i].key == held.value.key;
      assert LatestNaming(rewinds, xs, n, i);
    }
  }

  /** So does a param, */
  lemma {:induction false} ParamIsLatest(rewinds: set<Marker>, xs: seq<Keyed>, n: Name)
    requires Markers(xs) <= rewinds
    ensures IsGreatest(At(AppliedAll(NewFold(rewinds), xs).params, n), rewinds, xs, ParamWrite(n))
  {
    if xs != [] {
      LastStep(rewinds, xs);
      ParamIsLatest(rewinds, xs[..|xs| - 1], n);
      GreatestStep(At(AppliedAll(NewFold(rewinds), xs[..|xs| - 1]).params, n), rewinds, xs, ParamWrite(n));
    }
  }

  /** and every input, output, definition field and intent. */
  lemma {:induction false} SlotIsLatest(rewinds: set<Marker>, xs: seq<Keyed>, slot: Slot)
    requires Markers(xs) <= rewinds
    ensures IsGreatest(At(AppliedAll(NewFold(rewinds), xs).slots, slot), rewinds, xs, SlotWrite(slot))
  {
    if xs != [] {
      LastStep(rewinds, xs);
      SlotIsLatest(rewinds, xs[..|xs| - 1], slot);
      GreatestStep(At(AppliedAll(NewFold(rewinds), xs[..|xs| - 1]).slots, slot), rewinds, xs, SlotWrite(slot));
    }
  }

  // Metrics.

  /** The visible values logged under a name, in the order they arrived. */
  function LoggedOf(rewinds: set<Marker>, xs: seq<Keyed>, n: Name): seq<Stamped<Num>> {
    if xs == [] then []
    else
      var before, x := LoggedOf(rewinds, xs[..|xs| - 1], n), xs[|xs| - 1];
      if Visible(rewinds, x) && x.entry.kind.Metrics? && n in x.entry.kind.values
      then before + [Stamped(x.entry.kind.values[n], x.key)] else before
  }

  function CountFinite(vs: seq<Stamped<Num>>): nat {
    if vs == [] then 0 else CountFinite(vs[..|vs| - 1]) + if vs[|vs| - 1].value.Finite? then 1 else 0
  }

  function SumFinite(vs: seq<Stamped<Num>>): real {
    if vs == [] then 0.0
    else SumFinite(vs[..|vs| - 1]) + if vs[|vs| - 1].value.Finite? then vs[|vs| - 1].value.r else 0.0
  }

  /** `bound` is the least (or, with `sign` negative, greatest) finite value; none without one. */
  ghost predicate IsBound(bound: Option<real>, vs: seq<Stamped<Num>>, sign: real) {
    match bound
    case None => forall i :: 0 <= i < |vs| ==> vs[i].value.NonFinite?
    case Some(b) =>
      && (exists i :: 0 <= i < |vs| && vs[i].value == Finite(b))
      && (forall i :: 0 <= i < |vs| && vs[i].value.Finite? ==> sign * b <= sign * vs[i].value.r)
  }

  /** `seen` sums up the values. */
  ghost predicate SumsUp(seen: Seen, vs: seq<Stamped<Num>>) {
    && seen.Many? && seen.n == CountFinite(vs) && seen.sum == SumFinite(vs)
    && IsBound(seen.low, vs, 1.0) && IsBound(seen.high, vs, -1.0)
  }

  /** `first` is the value with the least key. */
  ghost predicate IsLeast(first: Option<Stamped<Num>>, vs: seq<Stamped<Num>>) {
    first.Some? && first.value in vs && forall i :: 0 <= i < |vs| ==> !Before(vs[i].key, first.value.key)
  }

  /** What a metric's cell holds: its last value, and from the second value on the finite
      ones' bounds, count and sum and its earliest value; a param's number only while
      nothing was logged. */
  ghost predicate CellSumsUp(c: Cell, rewinds: set<Marker>, xs: seq<Keyed>, n: Name) {
    var vs := LoggedOf(rewinds, xs, n);
    if vs == [] then c.seen.None? && c.first.None? && IsGreatest(c.latest, rewinds, xs, NumberWrite(n))
    else
      && c.latest.Some? && IsGreatest(c.latest, rewinds, xs, MetricWrite(n))
      && c.seen.Some?
      && if |vs| == 1 then c.seen.value == Once(vs[0].value) && c.first.None? && c.latest.value == vs[0]
         else SumsUp(c.seen.value, vs) && IsLeast(c.first, vs)
  }

  lemma WidenedSumsUp(seen: Seen, vs: seq<Stamped<Num>>, v: Stamped<Num>)
    requires SumsUp(seen, vs)
    ensures SumsUp(Widened(seen, v.value), vs + [v])
  {
    var all := vs + [v];
    assert all[..|vs|] == vs && all[|vs|] == v;
    assert forall i :: 0 <= i < |vs| ==> all[i] == vs[i];
    var low, high := Widened(seen, v.value).low, Widened(seen, v.value).high;
    if low.Some? {
      if low == seen.low {
        var i :| 0 <= i < |vs| && vs[i].value == Finite(low.value);
        assert all[i].value == Finite(low.value);
      } else {
        assert all[|vs|].value == Finite(low.value);
      }
    }
    if high.Some? {
      if high == seen.high {
        var i :| 0 <= i < |vs| && vs[i].value == Finite(high.value);
        assert all[i].value == Finite(high.value);
      } else {
        assert all[|vs|].value == Finite(high.value);
      }
    }
  }

  lemma OneSumsUp(v: Stamped<Num>)
    ensures SumsUp(Widened(NOTHING_SEEN, v.value), [v])
  {
    assert [] + [v] == [v];
    WidenedSumsUp(NOTHING_SEEN, [], v);
  }

  lemma LeastStep(first: Option<Stamped<Num>>, vs: seq<Stamped<Num>>, v: Stamped<Num>)
    requires IsLeast(first, vs)
    ensures IsLeast(Least(first, v.value, v.key), vs + [v])
  {
    assert (vs + [v])[|vs|] == v;
    assert forall x :: x in vs ==> x in vs + [v];
  }

  lemma LoggedSumsUp(c: Cell, rewinds: set<Marker>, xs: seq<Keyed>, n: Name)
    requires xs != [] && CellSumsUp(c, rewinds, xs[..|xs| - 1], n)
    requires Visible(rewinds, xs[|xs| - 1]) && n in MetricWrites(xs[|xs| - 1].entry.kind)
    ensures var x := xs[|xs| - 1];
            CellSumsUp(LogValue(c, MetricWrites(x.entry.kind)[n], x.key), rewinds, xs, n)
  {
    var before, x := xs[..|xs| - 1], xs[|xs| - 1];
    var vs := LoggedOf(rewinds, before, n);
    var v := Stamped(MetricWrites(x.entry.kind)[n], x.key);
    assert LoggedOf(rewinds, xs, n) == vs + [v];
    if vs == [] {
      NoneLogged(rewinds, before, n);
      GreatestStep(None, rewinds, xs, MetricWrite(n));
      assert vs + [v] == [v];
    } else {
      GreatestStep(c.latest, rewinds, xs, MetricWrite(n));
      if |vs| == 1 {
        assert vs == [vs[0]];
        OneSumsUp(vs[0]);
        assert IsLeast(Some(vs[0]), vs);
        WidenedSumsUp(Widened(NOTHING_SEEN, vs[0].value), vs, v);
        LeastStep(Some(vs[0]), vs, v);
      } else {
        WidenedSumsUp(c.seen.value, vs, v);
        LeastStep(c.first, vs, v);
      }
    }
  }

  lemma {:induction false} NoneLogged(rewinds: set<Marker>, xs: seq<Keyed>, n: Name)
    requires LoggedOf(rewinds, xs, n) == []
    ensures IsGreatest(None, rewinds, xs, MetricWrite(n))
  {
    if xs != [] {
      NoneLogged(rewinds, xs[..|xs| - 1], n);
      GreatestStep(None, rewinds, xs, MetricWrite(n));
    }
  }

  lemma UnloggedSumsUp(c: Cell, rewinds: set<Marker>, xs: seq<Keyed>, n: Name)
    requires xs != [] && CellSumsUp(c, rewinds, xs[..|xs| - 1], n)
    requires var x := xs[|xs| - 1]; !Visible(rewinds, x) || n !in MetricWrites(x.entry.kind)
    ensures var x := xs[|xs| - 1];
            CellSumsUp(if Visible(rewinds, x) then CellStep(c, x.entry.kind, n, x.key) else c, rewinds, xs, n)
  {
    var x := xs[|xs| - 1];
    if LoggedOf(rewinds, xs, n) == [] {
      GreatestStep(c.latest, rewinds, xs, NumberWrite(n));
    } else {
      GreatestStep(c.latest, rewinds, xs, MetricWrite(n));
    }
  }

  /** A metric's cell sums up its visible logged values, a param's number giving way. */
  lemma {:induction false} MetricSumsUp(rewinds: set<Marker>, xs: seq<Keyed>, n: Name)
    requires Markers(xs) <= rewinds
    ensures CellSumsUp(CellAt(AppliedAll(NewFold(rewinds), xs).cells, n), rewinds, xs, n)
  {
    if xs != [] {
      var before, x := xs[..|xs| - 1], xs[|xs| - 1];
      LastStep(rewinds, xs);
      MetricSumsUp(rewinds, before, n);
      var f := AppliedAll(NewFold(rewinds), before);
      CellsAfter(f, x.entry.kind, x.key, n);
      if Visible(rewinds, x) && n in MetricWrites(x.entry.kind) {
        LoggedSumsUp(CellAt(f.cells, n), rewinds, xs, n);
      } else {
        UnloggedSumsUp(CellAt(f.cells, n), rewinds, xs, n);
      }
    }
  }

  // The rest.

  /** `a` outranks `b`: a higher features version, else a later key. */
  predicate Outranks(version: int, k: Key, x: Keyed)
    requires x.entry.kind.Features?
  {
    version < x.entry.kind.version || (version == x.entry.kind.version && Before(k, x.key))
  }

  /** Features: the highest version wins, then the latest entry. */
  lemma {:induction false} FeaturesAreHighest(rewinds: set<Marker>, xs: seq<Keyed>)
    requires Markers(xs) <= rewinds
    ensures match AppliedAll(NewFold(rewinds), xs).features
            case None => forall i :: 0 <= i < |xs| && Visible(rewinds, xs[i]) ==> !xs[i].entry.kind.Features?
            case Some(held) =>
              && (exists i :: 0 <= i < |xs| && Visible(rewinds, xs[i])
                    && xs[i].entry.kind == Features(held.version, held.facts) && xs[i].key == held.key)
              && (forall i :: 0 <= i < |xs| && Visible(rewinds, xs[i]) && xs[i].entry.kind.Features? ==>
                    !Outranks(held.version, held.key, xs[i]))
  {
    if xs != [] {
      var before := xs[..|xs| - 1];
      LastStep(rewinds, xs);
      FeaturesAreHighest(rewinds, before);
      assert forall i :: 0 <= i < |before| ==> before[i] == xs[i];
      var was, held := AppliedAll(NewFold(rewinds), before).features, AppliedAll(NewFold(rewinds), xs).features;
      if held.Some? && held == was {
        var i :| 0 <= i < |before| && Visible(rewinds, before[i])
          && before[i].entry.kind == Features(held.value.version, held.value.facts) && before[i].key == held.value.key;
        assert xs[i] == before[i];
      } else if held.Some? {
        assert xs[|xs| - 1].key == held.value.key;
      }
    }
  }

  /** The last metric is the greatest key of the visible entries with logged values. */
  lemma {:induction false} LastMetricIsLatest(rewinds: set<Marker>, xs: seq<Keyed>)
    requires Markers(xs) <= rewinds
    ensures match AppliedAll(NewFold(rewinds), xs).lastMetric
            case None => forall i :: 0 <= i < |xs| && Visible(rewinds, xs[i]) ==> !xs[i].entry.kind.Metrics?
            case Some(held) =>
              && (exists i :: 0 <= i < |xs| && Visible(rewinds, xs[i]) && xs[i].entry.kind.Metrics? && xs[i].key == held)
              && (forall i :: 0 <= i < |xs| && Visible(rewinds, xs[i]) && xs[i].entry.kind.Metrics? ==>
                    !Before(held, xs[i].key))
  {
    if xs != [] {
      var before := xs[..|xs| - 1];
      LastStep(rewinds, xs);
      LastMetricIsLatest(rewinds, before);
      assert forall i :: 0 <= i < |before| ==> before[i] == xs[i];
      var was, held := AppliedAll(NewFold(rewinds), before).lastMetric, AppliedAll(NewFold(rewinds), xs).lastMetric;
      if held.Some? && held == was {
        var i :| 0 <= i < |before| && Visible(rewinds, before[i]) && before[i].entry.kind.Metrics? && before[i].key == held.value;
        assert xs[i] == before[i];
      } else if held.Some? {
        assert xs[|xs| - 1].key == held.value;
      }
    }
  }

  /** The create note is the one with the least key. */
  lemma {:induction false} CreateIsFirst(rewinds: set<Marker>, xs: seq<Keyed>)
    requires Markers(xs) <= rewinds
    ensures match AppliedAll(NewFold(rewinds), xs).create
            case None => forall i :: 0 <= i < |xs| && Visible(rewinds, xs[i]) ==> !xs[i].entry.kind.Create?
            case Some(held) =>
              && (exists i :: 0 <= i < |xs| && Visible(rewinds, xs[i]) && xs[i].entry.kind.Create?
                    && xs[i].entry.kind.note == held.value && xs[i].key == held.key)
              && (forall i :: 0 <= i < |xs| && Visible(rewinds, xs[i]) && xs[i].entry.kind.Create? ==>
                    !Before(xs[i].key, held.key))
  {
    if xs != [] {
      var before := xs[..|xs| - 1];
      LastStep(rewinds, xs);
      CreateIsFirst(rewinds, before);
      assert forall i :: 0 <= i < |before| ==> before[i] == xs[i];
      var was, held := AppliedAll(NewFold(rewinds), before).create, AppliedAll(NewFold(rewinds), xs).create;
      if held.Some? && held == was {
        var i :| 0 <= i < |before| && Visible(rewinds, before[i]) && before[i].entry.kind.Create?
          && before[i].entry.kind.note == held.value.value && before[i].key == held.value.key;
        assert xs[i] == before[i];
      } else if held.Some? {
        assert xs[|xs| - 1].key == held.value.key;
      }
    }
  }

  // ------------------------------------------------------------------ the class

  /** A log entry as a writer wrote it. */
  datatype Logged = Logged(ts: int, entry: Entry)

  /** The entries of a writer's log from position `first` on, keyed. */
  function KeyedFrom(writer: int, first: nat, entries: seq<Logged>): seq<Keyed> {
    if entries == [] then []
    else
      var n := |entries| - 1;
      KeyedFrom(writer, first, entries[..n]) + [Keyed(entries[n].entry, Key(entries[n].ts, writer, first + n))]
  }

  method KeepEach<N(==), V>(held: map<N, Stamped<V>>, writes: map<N, V>, k: Key) returns (out: map<N, Stamped<V>>)
    ensures out == KeepAll(held, writes, k)
  {
    out := held;
    var left := writes.Keys;
    while left != {}
      invariant left <= writes.Keys
      invariant out.Keys == held.Keys + (writes.Keys - left)
      invariant forall n :: n in out ==> out[n] == if n in writes && n !in left
        then Latest(At(held, n), writes[n], k).value else held[n]
      decreases left
    {
      var n :| n in left;
      var current := At(out, n);
      if current.None? || !Before(k, current.value.key) {
        out := out[n := Stamped(writes[n], k)];
      }
      left := left - {n};
    }
  }

  method LogEach(cells: map<Name, Cell>, values: map<Name, Num>, k: Key) returns (out: map<Name, Cell>)
    ensures out == LogAll(cells, values, k)
  {
    out := cells;
    var left := values.Keys;
    while left != {}
      invariant left <= values.Keys
      invariant out.Keys == cells.Keys + (values.Keys - left)
      invariant forall n :: n in out ==> out[n] == if n in values && n !in left
        then LogValue(CellAt(cells, n), values[n], k) else cells[n]
      decreases left
    {
      var n :| n in left;
      out := out[n := LogValue(CellAt(out, n), values[n], k)];
      left := left - {n};
    }
  }

  /** A fold as a record keeps it, entries folded in one at a time. */
  class LogFold {
    var params: map<Name, Stamped<Param>>
    var cells: map<Name, Cell>
    var tags: map<Name, Stamped<Option<Val>>>
    var slots: map<Slot, Stamped<Val>>
    var features: Option<Versioned>
    var lastMetric: Option<Key>
    var create: Option<Stamped<Val>>
    var rewinds: set<Marker>
    var stale: bool

    function State(): Fold
      reads this
    {
      Fold(params, cells, tags, slots, features, lastMetric, create, rewinds, stale)
    }

    constructor (known: set<Marker>)
      ensures State() == NewFold(known)
    {
      params, cells, tags, slots := map[], map[], map[], map[];
      features, lastMetric, create := None, None, None;
      rewinds, stale := known, false;
    }

    method LearnRewind(m: Marker)
      modifies this`rewinds, this`stale
      ensures State() == Learned(old(State()), m)
    {
      if m !in rewinds {
        rewinds := rewinds + {m};
        stale := true;
      }
    }

    method Apply(x: Keyed)
      modifies this
      ensures State() == Applied(old(State()), x)
    {
      hide KeepAll, LogAll, NumbersAll, IsRewound, Before, Numbers;
      if x.entry.kind.Rewind? {
        if x.entry.step.Some? {
          LearnRewind(MarkerOf(x));
        }
        return;
      }
      if IsRewound(rewinds, x) {
        return;
      }
      var kind, k := x.entry.kind, x.key;
      tags := KeepEach(tags, TagWrites(kind), k);
      slots := KeepEach(slots, SlotWrites(kind), k);
      if kind.Features? {
        features := KeepFeatures(features, kind, k);
      }
      params := KeepEach(params, ParamWrites(kind), k);
      cells := NumbersAll(cells, Numbers(ParamWrites(kind)), k);
      cells := LogEach(cells, MetricWrites(kind), k);
      if kind.Metrics? && (lastMetric.None? || !Before(k, lastMetric.value)) {
        lastMetric := Some(k);
      }
      if kind.Create? && (create.None? || Before(k, create.value.key)) {
        create := Some(Stamped(kind.note, k));
      }
    }

    /** Folds a writer's entries from position `first` on. */
    method ApplyEntries(writer: int, first: nat, entries: seq<Logged>)
      modifies this
      ensures State() == AppliedAll(old(State()), KeyedFrom(writer, first, entries))
    {
      for offset := 0 to |entries|
        invariant State() == AppliedAll(old(State()), KeyedFrom(writer, first, entries[..offset]))
      {
        var x := Keyed(entries[offset].entry, Key(entries[offset].ts, writer, first + offset));
        assert entries[..offset + 1][..offset] == entries[..offset];
        assert KeyedFrom(writer, first, entries[..offset + 1]) == KeyedFrom(writer, first, entries[..offset]) + [x];
        LastApplied(old(State()), KeyedFrom(writer, first, entries[..offset]), x);
        Apply(x);
      }
      assert entries[..|entries|] == entries;
    }
  }
}

/**
 The rows and per-verstr maps an index snapshot is made of (`index_snapshot.RowCache`,
 `index_snapshot_maps`), patched for the records that changed instead of rebuilt.

 `IsSnapshot` says what a snapshot of records in an order is, whatever was done before:
 each row at its place with its `idx`, every map what the rows say, empty side values
 left out, the goals a recount. `RowCache.TakeSnapshot` makes one, given only which records
 changed since the last.

 The maps the code keeps apart for rows, notes, run states, observation times and parent
 edges change together and are one map of entries here; a side table's values are kept
 by table and verstr.
 */
module SnapshotRows {
  import opened GoalCounting

  type Key = int

  datatype Meta = Meta(ts: int, verstr: string, parent: Option<string>, rest: string)

  /** What a record's log folds to: of a side table only a value that is not empty. */
  datatype Fold = Fold(body: string, note: string, sides: map<string, string>, declared: Declared)

  datatype Record = Record(meta: Option<Meta>, fold: Fold, state: string, observed: int)

  datatype Row = Row(idx: nat, meta: Meta, body: string)

  /** A record's row with what is kept beside it. */
  datatype Lean = Lean(row: Row, note: string, sides: map<string, string>, declared: Declared)

  function LeanRow(idx: nat, r: Record): Lean
    requires r.meta.Some?
  {
    Lean(Row(idx, r.meta.value, r.fold.body), r.fold.note, r.fold.sides, r.fold.declared)
  }

  /** What a snapshot holds of a run by its verstr. */
  datatype Entry = Entry(row: Row, note: string, edge: Option<string>, state: string, observed: int)

  function EntryOf(lean: Lean, r: Record): Entry {
    Entry(lean.row, lean.note, lean.row.meta.parent, r.state, r.observed)
  }

  /** The maps: entries, side values by table and verstr, declarations. */
  datatype Maps = Maps(entries: map<string, Entry>, sides: map<(string, string), string>, declared: map<string, Declared>)

  const NO_MAPS := Maps(map[], map[], map[])

  datatype Snapshot = Snapshot(rows: seq<Row>, maps: Maps, goals: Counts)

  type Records = map<Key, Record>

  // ------------------------------------------------------------- what a snapshot is

  /** The keys are of runs, each once, no two of a verstr. */
  ghost predicate Runs(order: seq<Key>, records: Records) {
    && (forall i :: 0 <= i < |order| ==> order[i] in records && records[order[i]].meta.Some?)
    && (forall i, j :: 0 <= i < j < |order| ==> order[i] != order[j] && VerstrAt(order, records, i) != VerstrAt(order, records, j))
  }

  function VerstrAt(order: seq<Key>, records: Records, i: int): string
    requires 0 <= i < |order|
  {
    if order[i] in records && records[order[i]].meta.Some? then records[order[i]].meta.value.verstr else ""
  }

  /** A row is the record's, field by field, with its number. */
  predicate RowRight(row: Row, idx: nat, r: Record)
    requires r.meta.Some?
  {
    row.idx == idx && row.meta == r.meta.value && row.body == r.fold.body
  }

  /** So is what is kept beside it. */
  predicate EntryRight(e: Entry, idx: nat, r: Record)
    requires r.meta.Some?
  {
    && RowRight(e.row, idx, r)
    && e.note == r.fold.note && e.edge == r.meta.value.parent
    && e.state == r.state && e.observed == r.observed
  }

  /** A run is in the maps as its record says, at its place. */
  ghost predicate RunRight(m: Maps, idx: nat, r: Record)
    requires r.meta.Some?
  {
    var v := r.meta.value.verstr;
    && v in m.entries && EntryRight(m.entries[v], idx, r)
    && DeclaredOf(m.declared, v) == r.fold.declared && (v in m.declared ==> m.declared[v] != map[])
    && forall t :: SideRight(m, v, r, t)
  }

  predicate SideRight(m: Maps, v: string, r: Record, t: string) {
    ((t, v) in m.sides <==> t in r.fold.sides) && (t in r.fold.sides ==> m.sides[(t, v)] == r.fold.sides[t])
  }

  /** The maps hold what is of some run. */
  ghost predicate OnlyRuns(m: Maps, order: seq<Key>, records: Records) {
    && (forall v :: v in m.entries ==> HasVerstr(order, records, v))
    && (forall t, v :: (t, v) in m.sides ==> v in m.entries)
    && (forall v :: v in m.declared ==> v in m.entries)
  }

  ghost predicate HasVerstr(order: seq<Key>, records: Records, v: string) {
    exists i :: 0 <= i < |order| && VerstrAt(order, records, i) == v
  }

  ghost predicate MapsRight(m: Maps, order: seq<Key>, records: Records)
    requires Runs(order, records)
  {
    OnlyRuns(m, order, records) && forall i :: 0 <= i < |order| ==> RunRight(m, i + 1, records[order[i]])
  }

  /** The rows of the records in order, numbered from 1. */
  ghost predicate RowsRight(rows: seq<Row>, order: seq<Key>, records: Records)
    requires Runs(order, records)
  {
    |rows| == |order| && forall i :: 0 <= i < |order| ==> RowRight(rows[i], i + 1, records[order[i]])
  }

  ghost predicate IsSnapshot(s: Snapshot, order: seq<Key>, records: Records)
    requires Runs(order, records)
  {
    RowsRight(s.rows, order, records) && MapsRight(s.maps, order, records) && IsRecount(s.goals, s.maps.declared)
  }

  /** There is one snapshot of the records in an order. */
  lemma SnapshotIsOne(a: Snapshot, b: Snapshot, order: seq<Key>, records: Records)
    requires Runs(order, records) && IsSnapshot(a, order, records) && IsSnapshot(b, order, records)
    ensures a == b
  {
    forall v ensures v in a.maps.entries <==> v in b.maps.entries {
      SameRun(a.maps, b.maps, order, records, v);
      SameRun(b.maps, a.maps, order, records, v);
    }
    forall v | v in a.maps.entries
      ensures a.maps.entries[v] == b.maps.entries[v] && DeclaredOf(a.maps.declared, v) == DeclaredOf(b.maps.declared, v)
    {
      SameRun(a.maps, b.maps, order, records, v);
    }
    forall v ensures v in a.maps.declared <==> v in b.maps.declared {
      SameRun(a.maps, b.maps, order, records, v);
      SameRun(b.maps, a.maps, order, records, v);
    }
    assert a.maps.declared == b.maps.declared by {
      forall v | v in a.maps.declared ensures a.maps.declared[v] == b.maps.declared[v] {
        SameRun(a.maps, b.maps, order, records, v);
      }
    }
    forall x ensures x in a.maps.sides <==> x in b.maps.sides {
      SameSide(a.maps, b.maps, order, records, x.0, x.1);
      SameSide(b.maps, a.maps, order, records, x.0, x.1);
    }
    forall x | x in a.maps.sides ensures a.maps.sides[x] == b.maps.sides[x] {
      SameSide(a.maps, b.maps, order, records, x.0, x.1);
    }
    assert a.maps == b.maps;
    RecountIsOne(a.goals, b.goals, a.maps.declared);
  }

  lemma SameRun(a: Maps, b: Maps, order: seq<Key>, records: Records, v: string)
    requires Runs(order, records) && MapsRight(a, order, records) && MapsRight(b, order, records)
    ensures v in a.entries ==> v in b.entries && a.entries[v] == b.entries[v]
    ensures DeclaredOf(a.declared, v) == DeclaredOf(b.declared, v)
    ensures v in a.declared ==> v in b.declared
  {
    if v in a.entries || v in b.entries {
      assert HasVerstr(order, records, v);
      var i :| 0 <= i < |order| && VerstrAt(order, records, i) == v;
      assert RunRight(a, i + 1, records[order[i]]) && RunRight(b, i + 1, records[order[i]]);
    }
  }

  lemma SameSide(a: Maps, b: Maps, order: seq<Key>, records: Records, t: string, v: string)
    requires Runs(order, records) && MapsRight(a, order, records) && MapsRight(b, order, records)
    ensures (t, v) in a.sides ==> (t, v) in b.sides && a.sides[(t, v)] == b.sides[(t, v)]
  {
    if (t, v) in a.sides {
      var i :| 0 <= i < |order| && VerstrAt(order, records, i) == v;
      assert RunRight(a, i + 1, records[order[i]]) && RunRight(b, i + 1, records[order[i]]);
      assert SideRight(a, v, records[order[i]], t) && SideRight(b, v, records[order[i]], t);
    }
  }

  // ----------------------------------------------------------------- putting a run

  /** The maps with a run's values in place of those it had. */
  ghost predicate IsPut(m: Maps, after: Maps, v: string, e: Entry, sides: map<string, string>, declared: Declared) {
    && after.entries == m.entries[v := e]
    && after.declared == Moved(m.declared, v, declared)
    && (forall t, w :: SidePut(m, after, v, sides, t, w))
  }

  predicate SidePut(m: Maps, after: Maps, v: string, sides: map<string, string>, t: string, w: string) {
    if w == v then ((t, w) in after.sides <==> t in sides) && (t in sides ==> after.sides[(t, w)] == sides[t])
    else ((t, w) in after.sides <==> (t, w) in m.sides) && ((t, w) in m.sides ==> after.sides[(t, w)] == m.sides[(t, w)])
  }

  /** The maps with a record's run put at its place. */
  ghost predicate RunPut(m: Maps, after: Maps, idx: nat, r: Record)
    requires r.meta.Some?
  {
    var lean := LeanRow(idx, r);
    IsPut(m, after, r.meta.value.verstr, EntryOf(lean, r), lean.sides, lean.declared)
  }

  /** A run put leaves the other runs' values alone. */
  lemma OtherRunStays(m: Maps, after: Maps, at: nat, put: Record, idx: nat, r: Record)
    requires put.meta.Some? && RunPut(m, after, at, put)
    requires r.meta.Some? && r.meta.value.verstr != put.meta.value.verstr && RunRight(m, idx, r)
    ensures RunRight(after, idx, r)
  {
    var v, w := put.meta.value.verstr, r.meta.value.verstr;
    forall t ensures SideRight(after, w, r, t) {
      assert SideRight(m, w, r, t) && SidePut(m, after, v, put.fold.sides, t, w);
    }
  }

  lemma PutRunRight(m: Maps, after: Maps, idx: nat, r: Record)
    requires r.meta.Some? && RunPut(m, after, idx, r)
    ensures RunRight(after, idx, r)
  {
    var v := r.meta.value.verstr;
    forall t ensures SideRight(after, v, r, t) {
      assert SidePut(m, after, v, r.fold.sides, t, v);
    }
  }

  /** `key`'s record is a run not among those of `keys` but perhaps in place `pos`. */
  ghost predicate Fits(keys: seq<Key>, was: Records, pos: nat, key: Key, r: Record) {
    && r.meta.Some? && pos <= |keys|
    && (pos < |keys| ==> keys[pos] == key)
    && forall i :: 0 <= i < |keys| && i != pos ==> keys[i] != key && VerstrAt(keys, was, i) != r.meta.value.verstr
  }

  /** The keys with one put at the end, unless it is among them. */
  function WithKey(keys: seq<Key>, pos: nat, key: Key): seq<Key> { if pos < |keys| then keys else keys + [key] }

  lemma FitsRuns(keys: seq<Key>, was: Records, pos: nat, key: Key, r: Record)
    requires Runs(keys, was) && Fits(keys, was, pos, key, r)
    ensures Runs(WithKey(keys, pos, key), was[key := r])
    ensures var more, now := WithKey(keys, pos, key), was[key := r];
            pos < |more| && more[pos] == key && VerstrAt(more, now, pos) == r.meta.value.verstr
            && forall i :: 0 <= i < |more| && i != pos ==>
                 i < |keys| && more[i] == keys[i] && VerstrAt(more, now, i) == VerstrAt(keys, was, i) && now[more[i]] == was[keys[i]]
  {
  }

  /** A run put at its place — its own again with the same verstr, or the next one. */
  lemma PutKeepsMaps(m: Maps, after: Maps, keys: seq<Key>, was: Records, pos: nat, key: Key, r: Record)
    requires Runs(keys, was) && MapsRight(m, keys, was) && Fits(keys, was, pos, key, r) && RunPut(m, after, pos + 1, r)
    requires pos < |keys| ==> VerstrAt(keys, was, pos) == r.meta.value.verstr
    ensures Runs(WithKey(keys, pos, key), was[key := r])
    ensures MapsRight(after, WithKey(keys, pos, key), was[key := r])
  {
    var more, now := WithKey(keys, pos, key), was[key := r];
    FitsRuns(keys, was, pos, key, r);
    hide RunRight, RunPut;
    forall i | 0 <= i < |more| ensures RunRight(after, i + 1, now[more[i]]) {
      if i == pos {
        PutRunRight(m, after, i + 1, r);
      } else {
        assert RunRight(m, i + 1, was[keys[i]]);
        OtherRunStays(m, after, pos + 1, r, i + 1, was[keys[i]]);
      }
    }
    OnlyRunsAfter(m, after, keys, was, more, now, pos, r);
  }

  lemma OnlyRunsAfter(m: Maps, after: Maps, keys: seq<Key>, was: Records, more: seq<Key>, now: Records,
                      pos: nat, r: Record)
    requires OnlyRuns(m, keys, was) && r.meta.Some? && RunPut(m, after, pos + 1, r)
    requires pos < |more| && VerstrAt(more, now, pos) == r.meta.value.verstr && |keys| <= |more|
    requires forall i :: 0 <= i < |keys| ==> VerstrAt(more, now, i) == VerstrAt(keys, was, i)
    ensures OnlyRuns(after, more, now)
  {
    var v := r.meta.value.verstr;
    forall w | w in after.entries ensures HasVerstr(more, now, w) {
      if w == v {
        assert VerstrAt(more, now, pos) == w;
      } else {
        assert HasVerstr(keys, was, w);
        var i :| 0 <= i < |keys| && VerstrAt(keys, was, i) == w;
        assert VerstrAt(more, now, i) == w;
      }
    }
    forall t, w | (t, w) in after.sides ensures w in after.entries {
      assert SidePut(m, after, v, r.fold.sides, t, w);
    }
  }

  // --------------------------------------------------------------------- the maps

  const TABLES := ["metric_parts", "outputs", "features", "intents", "hypotheses", "system_metrics", "note_sigs"]

  /** A record's side values are of the tables there are. */
  ghost predicate KnownSides(sides: map<string, string>) { forall t :: t in sides ==> t in TABLES }

  class SnapshotMaps {
    /** The maps of the last snapshot, what was put since, and what was taken out. */
    var base: Maps
    var changes: Maps
    var removedSides: set<(string, string)>
    var removedDeclared: set<string>
    const goals: GoalCounts

    /** The maps with the changes so far. */
    function View(): Maps
      reads this
    {
      Maps(base.entries + changes.entries, (base.sides - removedSides) + changes.sides,
           (base.declared - removedDeclared) + changes.declared)
    }

    ghost predicate Valid()
      reads this, goals
    {
      && changes.sides.Keys !! removedSides && changes.declared.Keys !! removedDeclared
      && goals.Valid() && IsRecount(goals.counts, View().declared)
    }

    constructor ()
      ensures Valid() && View() == NO_MAPS && fresh(goals)
    {
      base, changes, removedSides, removedDeclared := NO_MAPS, NO_MAPS, {}, {};
      goals := new GoalCounts();
    }

    /** Puts a run's values in, an empty side value taking its entry out. */
    method Put(v: string, e: Entry, sides: map<string, string>, declared: Declared)
      requires Valid() && KnownSides(sides) && SidesKnown(View())
      modifies this, goals
      ensures Valid() && SidesKnown(View()) && IsPut(old(View()), View(), v, e, sides, declared)
    {
      ghost var was := View();
      changes := changes.(entries := changes.entries[v := e]);
      assert View() == was.(entries := was.entries[v := e]);
      PutDeclared(v, declared);
      PutSides(v, sides, was);
    }

    /** A run's declarations with the changes so far. */
    function Current(v: string): (d: Declared)
      requires changes.declared.Keys !! removedDeclared
      reads this
      ensures d == DeclaredOf(View().declared, v)
    {
      if v in changes.declared then changes.declared[v]
      else if v in removedDeclared then map[]
      else if v in base.declared then base.declared[v] else map[]
    }

    method PutDeclared(v: string, declared: Declared)
      requires Valid()
      modifies this`changes, this`removedDeclared, goals
      ensures Valid() && View() == old(View()).(declared := Moved(old(View()).declared, v, declared))
    {
      hide IsRecount;
      ghost var was := View();
      SparsePut(base.declared, changes.declared, removedDeclared, v, declared);
      goals.Move(Current(v), declared, was.declared, v);
      if declared != map[] {
        changes := changes.(declared := changes.declared[v := declared]);
        removedDeclared := removedDeclared - {v};
      } else {
        changes := changes.(declared := changes.declared - {v});
        removedDeclared := removedDeclared + {v};
      }
    }

    /** Sets or takes out one side value. */
    method PutSide(x: (string, string), value: Option<string>)
      requires changes.sides.Keys !! removedSides
      modifies this`changes, this`removedSides
      ensures changes.sides.Keys !! removedSides
      ensures changes == old(changes).(sides := changes.sides)
      ensures View().sides == if value.Some? then old(View()).sides[x := value.value] else old(View()).sides - {x}
    {
      if value.Some? {
        changes := changes.(sides := changes.sides[x := value.value]);
        removedSides := removedSides - {x};
      } else {
        changes := changes.(sides := changes.sides - {x});
        removedSides := removedSides + {x};
      }
    }

    method PutSides(v: string, sides: map<string, string>, ghost was: Maps)
      requires changes.sides.Keys !! removedSides && KnownSides(sides) && SidesKnown(View())
      requires View().sides == was.sides
      modifies this`changes, this`removedSides
      ensures changes.sides.Keys !! removedSides && SidesKnown(View())
      ensures changes == old(changes).(sides := changes.sides)
      ensures forall t, w :: SidePut(was, View(), v, sides, t, w)
    {
      for i := 0 to |TABLES|
        invariant changes.sides.Keys !! removedSides && changes == old(changes).(sides := changes.sides)
        invariant SidesKnown(View())
        invariant forall t, w :: SidePutUpTo(was, View(), v, sides, i, t, w)
      {
        hide SidePutUpTo, SidesKnown;
        ghost var before := View();
        var t := TABLES[i];
        PutSide((t, v), if t in sides then Some(sides[t]) else None);
        OneTable(was, before, View(), v, sides, i, i + 1);
      }
      AllTables(was, View(), v, sides);
    }

    /** The maps as of now, handed out; what was handed out before stays as it was. */
    method Shared() returns (maps: Maps, counts: Counts)
      requires Valid()
      modifies this, goals`shared
      ensures Valid() && maps == old(View()) == View() && IsRecount(counts, maps.declared)
    {
      hide IsRecount;
      base := View();
      changes, removedSides, removedDeclared := NO_MAPS, {}, {};
      NothingChanged(base);
      counts := goals.Share();
      maps := base;
    }
  }

  lemma NothingChanged(m: Maps)
    ensures Maps(m.entries + map[], (m.sides - {}) + map[], (m.declared - {}) + map[]) == m
  {
  }

  /** A declaration set, or an empty one taken out, among the changes to a map. */
  lemma SparsePut(base: map<string, Declared>, changes: map<string, Declared>, removed: set<string>, v: string,
                  d: Declared)
    requires changes.Keys !! removed
    ensures var c, r := if d != map[] then changes[v := d] else changes - {v}, if d != map[] then removed - {v} else removed + {v};
            c.Keys !! r && (base - r) + c == Moved((base - removed) + changes, v, d)
  {
  }

  ghost predicate SidesKnown(m: Maps) { forall t, w :: (t, w) in m.sides ==> t in TABLES }

  /** The side values of the first `n` tables are put. */
  predicate SidePutUpTo(was: Maps, now: Maps, v: string, sides: map<string, string>, n: nat, t: string, w: string)
    requires n <= |TABLES|
  {
    if w == v && t in TABLES[..n] then SidePut(was, now, v, sides, t, w)
    else ((t, w) in now.sides <==> (t, w) in was.sides) && ((t, w) in was.sides ==> now.sides[(t, w)] == was.sides[(t, w)])
  }

  lemma AllTables(was: Maps, now: Maps, v: string, sides: map<string, string>)
    requires forall t, w :: SidePutUpTo(was, now, v, sides, |TABLES|, t, w)
    requires KnownSides(sides) && SidesKnown(was)
    ensures forall t, w :: SidePut(was, now, v, sides, t, w)
  {
    assert TABLES[..|TABLES|] == TABLES;
    forall t, w ensures SidePut(was, now, v, sides, t, w) {
      assert SidePutUpTo(was, now, v, sides, |TABLES|, t, w);
    }
  }

  lemma OneTable(was: Maps, before: Maps, now: Maps, v: string, sides: map<string, string>, i: nat, n: nat)
    requires i < |TABLES| && n == i + 1 && SidesKnown(before)
    requires forall t, w :: SidePutUpTo(was, before, v, sides, i, t, w)
    requires var x := (TABLES[i], v);
             now.sides == if TABLES[i] in sides then before.sides[x := sides[TABLES[i]]] else before.sides - {x}
    ensures forall t, w :: SidePutUpTo(was, now, v, sides, n, t, w)
    ensures SidesKnown(now)
  {
    assert forall t :: t in TABLES[..n] <==> t in TABLES[..i] || t == TABLES[i];
    forall t, w ensures SidePutUpTo(was, now, v, sides, n, t, w) {
      assert SidePutUpTo(was, before, v, sides, i, t, w);
    }
  }

  // ------------------------------------------------------------------ the row cache

  /** The cached row of a key, if any, is its record's, at whatever place. */
  ghost predicate CachedRight(rows: map<Key, Lean>, key: Key, r: Record) {
    key in rows ==> r.meta.Some? && rows[key] == LeanRow(rows[key].row.idx, r)
  }

  /** Rows only of records as they are. */
  ghost predicate CacheRight(rows: map<Key, Lean>, records: Records) {
    forall k :: k in rows && k in records && records[k].meta.Some? ==> CachedRight(rows, k, records[k])
  }

  ghost predicate AllKnown(order: seq<Key>, records: Records) {
    forall i :: 0 <= i < |order| && order[i] in records ==> KnownSides(records[order[i]].fold.sides)
  }

  /** The records of the keys are the same. */
  ghost predicate SameRecords(keys: seq<Key>, a: Records, b: Records) {
    forall i :: 0 <= i < |keys| ==> keys[i] in a && keys[i] in b && a[keys[i]] == b[keys[i]]
  }

  lemma SameRecordsSameParts(m: Maps, rows: seq<Row>, keys: seq<Key>, a: Records, b: Records)
    requires Runs(keys, a) && MapsRight(m, keys, a) && RowsRight(rows, keys, a) && SameRecords(keys, a, b)
    ensures Runs(keys, b) && MapsRight(m, keys, b) && RowsRight(rows, keys, b)
  {
    assert forall i :: 0 <= i < |keys| ==> VerstrAt(keys, a, i) == VerstrAt(keys, b, i);
    assert Runs(keys, b);
    forall i | 0 <= i < |keys| ensures RunRight(m, i + 1, b[keys[i]]) {
      assert RunRight(m, i + 1, a[keys[i]]);
    }
    forall v | v in m.entries ensures HasVerstr(keys, b, v) {
      var i :| 0 <= i < |keys| && VerstrAt(keys, a, i) == v;
      assert VerstrAt(keys, b, i) == v;
    }
  }

  /** Rows, positions and rows tuple of what was put, `keys` in turn. */
  ghost predicate ListRight(keys: seq<Key>, was: Records, list: seq<Row>, pos: map<Key, nat>)
    requires Runs(keys, was)
  {
    && RowsRight(list, keys, was)
    && (forall i :: 0 <= i < |keys| ==> keys[i] in pos && pos[keys[i]] == i)
    && (forall k :: k in pos ==> pos[k] < |keys| && keys[pos[k]] == k)
  }

  lemma ListPut(keys: seq<Key>, was: Records, list: seq<Row>, pos: map<Key, nat>, at: nat, key: Key, r: Record)
    requires Runs(keys, was) && ListRight(keys, was, list, pos) && Fits(keys, was, at, key, r)
    ensures var row := LeanRow(at + 1, r).row;
            Runs(WithKey(keys, at, key), was[key := r])
            && ListRight(WithKey(keys, at, key), was[key := r],
                         if at == |list| then list + [row] else list[at := row], pos[key := at])
  {
    FitsRuns(keys, was, at, key, r);
    var row, more, now := LeanRow(at + 1, r).row, WithKey(keys, at, key), was[key := r];
    var longer := if at == |list| then list + [row] else list[at := row];
    forall i | 0 <= i < |more| ensures longer[i] == LeanRow(i + 1, now[more[i]]).row {
      assert i != at ==> list[i] == LeanRow(i + 1, was[keys[i]]).row;
    }
    assert RowsRight(longer, more, now);
  }

  class RowCache {
    var rows: map<Key, Lean>
    var order: seq<Key>
    var pos: map<Key, nat>
    var list: seq<Row>
    /** The last snapshot's rows, and whether the list moved since. */
    var tuple: seq<Row>
    var listMoved: bool
    var maps: SnapshotMaps
    /** The keys in the list, and their records as put. */
    ghost var keys: seq<Key>
    ghost var was: Records

    ghost predicate Built()
      reads this, maps, maps.goals
    {
      && maps.Valid() && SidesKnown(maps.View())
      && Runs(keys, was) && MapsRight(maps.View(), keys, was) && ListRight(keys, was, list, pos)
      && (!listMoved ==> tuple == list)
    }

    ghost predicate Valid()
      reads this, maps, maps.goals
    {
      Built() && keys == order
    }

    constructor ()
      ensures Valid() && order == [] && rows == map[] && fresh(maps) && fresh(maps.goals)
    {
      rows, order, pos, list, tuple, listMoved := map[], [], map[], [], [], false;
      maps := new SnapshotMaps();
      keys, was := [], map[];
    }

    method Pop(key: Key)
      modifies this`rows
      ensures rows == old(rows) - {key}
    {
      rows := rows - {key};
    }

    /** A record's row at its place: cached, numbered again, or folded. */
    method Row(key: Key, idx: nat, r: Record) returns (lean: Lean)
      requires r.meta.Some? && CachedRight(rows, key, r)
      modifies this`rows
      ensures lean == LeanRow(idx, r) && rows == old(rows)[key := lean]
    {
      if key !in rows {
        rows := rows[key := LeanRow(idx, r)];
      } else if rows[key].row.idx != idx {
        rows := rows[key := rows[key].(row := rows[key].row.(idx := idx))];
      }
      lean := rows[key];
    }

    /** Puts a record's row at a place: its own again, or the next one. */
    method Put(key: Key, at: nat, r: Record)
      requires Built() && Fits(keys, was, at, key, r) && KnownSides(r.fold.sides) && CachedRight(rows, key, r)
      requires at < |keys| ==> VerstrAt(keys, was, at) == r.meta.value.verstr
      modifies this`rows, this`list, this`listMoved, this`pos, this`keys, this`was, maps, maps.goals
      ensures Built() && keys == WithKey(old(keys), at, key) && was == old(was)[key := r]
      ensures rows == old(rows)[key := LeanRow(at + 1, r)]
    {
      ghost var k, w, m := keys, was, maps.View();
      var lean := Row(key, at + 1, r);
      PutRow(key, at, lean.row, r);
      PutMaps(at, lean, r, k, w, key);
      keys, was := WithKey(k, at, key), w[key := r];
    }

    /** The row's part of a put. */
    method PutRow(key: Key, at: nat, row: Row, r: Record)
      requires Runs(keys, was) && ListRight(keys, was, list, pos) && Fits(keys, was, at, key, r)
      requires row == LeanRow(at + 1, r).row && (!listMoved ==> tuple == list)
      modifies this`list, this`listMoved, this`pos
      ensures Runs(WithKey(keys, at, key), was[key := r])
      ensures ListRight(WithKey(keys, at, key), was[key := r], list, pos) && (!listMoved ==> tuple == list)
    {
      ListPut(keys, was, list, pos, at, key, r);
      ghost var wanted := if at == |list| then list + [row] else list[at := row];
      if at == |list| {
        list := list + [row];
        listMoved := true;
      } else if list[at] != row {
        list := list[at := row];
        listMoved := true;
      }
      pos := pos[key := at];
      assert list == wanted;
    }

    /** The maps' part of a put. */
    method PutMaps(at: nat, lean: Lean, r: Record, ghost k: seq<Key>, ghost w: Records, ghost key: Key)
      requires maps.Valid() && SidesKnown(maps.View()) && Runs(k, w) && MapsRight(maps.View(), k, w)
      requires Fits(k, w, at, key, r) && KnownSides(r.fold.sides) && lean == LeanRow(at + 1, r)
      requires at < |k| ==> VerstrAt(k, w, at) == r.meta.value.verstr
      modifies maps, maps.goals
      ensures maps.Valid() && SidesKnown(maps.View())
      ensures Runs(WithKey(k, at, key), w[key := r])
      ensures MapsRight(maps.View(), WithKey(k, at, key), w[key := r])
    {
      hide MapsRight, Runs, IsPut;
      ghost var m := maps.View();
      maps.Put(r.meta.value.verstr, EntryOf(lean, r), lean.sides, lean.declared);
      assert RunPut(m, maps.View(), at + 1, r);
      PutKeepsMaps(m, maps.View(), k, w, at, key, r);
    }

    /** Swaps in the touched rows already in the list; false when one of them is another
        verstr's now. */
    method Patch(touched: set<Key>, records: Records) returns (ok: bool)
      requires Built() && Runs(keys, records) && AllKnown(keys, records) && CacheRight(rows, records)
      modifies this`rows, this`list, this`listMoved, this`pos, this`keys, this`was, maps, maps.goals
      ensures Built() && keys == old(keys) && CacheRight(rows, records)
      ensures ok ==> forall k :: PatchedKey(old(was), was, touched, {}, records, keys, k)
      ensures ok <==> forall k :: k in touched ==> !VerstrMoved(keys, old(was), records, k)
    {
      var left := touched;
      while left != {}
        invariant left <= touched && Built() && keys == old(keys) && CacheRight(rows, records)
        invariant forall k :: PatchedKey(old(was), was, touched, left, records, keys, k)
        invariant forall k :: k in touched - left ==> !VerstrMoved(keys, old(was), records, k)
        decreases left
      {
        SomeKey(left);
        var key :| key in left;
        ghost var before := was;
        assert PatchedKey(old(was), was, touched, left, records, keys, key);
        ok := PatchKey(key, records);
        if !ok {
          return;
        }
        PatchOne(old(was), before, was, touched, left, records, keys, key);
        left := left - {key};
      }
      ok := true;
    }

    /** Puts one touched record in its place again, if it is in the list. */
    method PatchKey(key: Key, records: Records) returns (ok: bool)
      requires Built() && Runs(keys, records) && AllKnown(keys, records) && CacheRight(rows, records)
      modifies this`rows, this`list, this`listMoved, this`pos, this`keys, this`was, maps, maps.goals
      ensures Built() && keys == old(keys) && CacheRight(rows, records)
      ensures ok ==> key in keys ==> key in records
      ensures ok ==> was == if key in keys then old(was)[key := records[key]] else old(was)
      ensures ok <==> !VerstrMoved(keys, old(was), records, key)
    {
      hide *;
      BuiltParts();
      if key !in pos {
        NotInList(keys, was, list, pos, key);
        NotMoved(keys, was, records, key);
        return true;
      }
      var at := pos[key];
      ghost var lean := rows;
      InList(keys, was, records, list, pos, key);
      ListedVerstr(keys, was, records, list, at);
      if records[key].meta.value.verstr != list[at].meta.verstr {
        return false;
      }
      FitsAgain(keys, was, records, rows, at);
      Put(key, at, records[key]);
      StillCached(lean, rows, records, key, at + 1);
      return true;
    }

    lemma BuiltParts()
      requires Built()
      ensures Runs(keys, was) && ListRight(keys, was, list, pos)
    {
    }

    /** Puts every record anew. */
    method Rebuild(order: seq<Key>, records: Records)
      requires Runs(order, records) && AllKnown(order, records) && CacheRight(rows, records)
      modifies this`rows, this`list, this`listMoved, this`pos, this`keys, this`was, this`maps
      ensures Built() && keys == order && SameRecords(order, was, records) && CacheRight(rows, records)
      ensures fresh(maps) && fresh(maps.goals)
    {
      hide IsRecount;
      pos, list, listMoved := map[], [], true;
      maps := new SnapshotMaps();
      keys, was := [], map[];
      Append(order, records);
    }

    /** Puts the records of the order past those in the list. */
    method Append(order: seq<Key>, records: Records)
      requires Built() && keys <= order && SameRecords(keys, was, records)
      requires Runs(order, records) && AllKnown(order, records) && CacheRight(rows, records)
      modifies this`rows, this`list, this`listMoved, this`pos, this`keys, this`was, maps, maps.goals
      ensures Built() && keys == order && SameRecords(order, was, records) && CacheRight(rows, records)
    {
      assert |list| == |keys|;
      for i := |list| to |order|
        invariant Built() && keys == order[..i] && SameRecords(keys, was, records) && CacheRight(rows, records)
      {
        hide *;
        ghost var before, lean := was, rows;
        FitsNext(order, keys, was, records, rows, i);
        Put(order[i], i, records[order[i]]);
        StillCached(lean, rows, records, order[i], i + 1);
        SameAndNext(order, i, before, was, records, keys);
      }
    }

    /** The snapshot of the records in order, `touched` those changed since the last (none:
        not known). */
    method TakeSnapshot(order: seq<Key>, records: Records, touched: Option<set<Key>>) returns (s: Snapshot)
      requires Valid() && Runs(order, records) && AllKnown(order, records) && CacheRight(rows, records)
      requires touched.Some? ==> Untouched(this.order, was, records, touched.value)
      modifies this, maps, maps.goals
      ensures Valid() && this.order == order && SameRecords(order, was, records) && CacheRight(rows, records)
      ensures IsSnapshot(s, order, records)
      ensures maps == old(maps) <==> OnlyGrew(old(this.order), old(was), order, records, touched)
      ensures maps == old(maps) || fresh(maps)
      ensures maps.goals == old(maps.goals) || fresh(maps.goals)
    {
      hide Runs, MapsRight, ListRight, IsSnapshot, SameRecords, CacheRight, AllKnown, Untouched;
      Bring(order, records, touched);
      this.order := order;
      if listMoved {
        tuple, listMoved := list, false;
      }
      s := Materialize(order, records);
    }

    /** Brings list and maps to the records in order: patched where it only grew, else rebuilt. */
    method Bring(order: seq<Key>, records: Records, touched: Option<set<Key>>)
      requires Valid() && Runs(order, records) && AllKnown(order, records) && CacheRight(rows, records)
      requires touched.Some? ==> Untouched(this.order, was, records, touched.value)
      modifies this`rows, this`list, this`listMoved, this`pos, this`keys, this`was, this`maps, maps, maps.goals
      ensures Built() && keys == order && SameRecords(order, was, records) && CacheRight(rows, records)
      ensures maps == old(maps) || fresh(maps)
      ensures maps.goals == old(maps.goals) || fresh(maps.goals)
      ensures maps == old(maps) <==> OnlyGrew(this.order, old(was), order, records, touched)
    {
      var patched := false;
      if touched.Some? && |this.order| <= |order| && order[..|this.order|] == this.order {
        patched := PatchPrefix(order, records, touched.value);
      }
      if !patched {
        Rebuild(order, records);
      }
      Append(order, records);
    }

    method PatchPrefix(order: seq<Key>, records: Records, touched: set<Key>) returns (ok: bool)
      requires Valid() && Runs(order, records) && AllKnown(order, records) && CacheRight(rows, records)
      requires Untouched(this.order, was, records, touched)
      requires |this.order| <= |order| && order[..|this.order|] == this.order
      modifies this`rows, this`list, this`listMoved, this`pos, this`keys, this`was, maps, maps.goals
      ensures Built() && keys <= order && CacheRight(rows, records)
      ensures ok ==> SameRecords(keys, was, records)
      ensures ok <==> forall k :: k in touched ==> !VerstrMoved(this.order, old(was), records, k)
    {
      hide Runs, AllKnown, CacheRight, Untouched, SameRecords, PatchedKey, MapsRight, ListRight;
      PrefixRuns(this.order, order, records);
      ghost var before := was;
      ok := Patch(touched, records);
      if ok {
        PatchedAll(keys, before, was, touched, records);
      }
    }

    /** What the snapshot carries: the rows as a tuple and the shared maps. */
    method Materialize(ghost order: seq<Key>, ghost records: Records) returns (s: Snapshot)
      requires Valid() && this.order == order && SameRecords(order, was, records) && !listMoved
      modifies maps, maps.goals`shared
      ensures Valid() && Runs(order, records) && IsSnapshot(s, order, records)
    {
      SameRecordsSameParts(maps.View(), list, keys, was, records);
      var shared, counts := maps.Shared();
      s := Snapshot(tuple, shared, counts);
    }
  }

  /** A key of the list whose run has another verstr now. */
  ghost predicate VerstrMoved(keys: seq<Key>, was: Records, records: Records, k: Key) {
    exists i :: 0 <= i < |keys| && keys[i] == k && VerstrAt(keys, records, i) != VerstrAt(keys, was, i)
  }

  /** What changed is known, the old order is a first part of the new one, and no run in it has
      another verstr: then nothing is built anew. */
  ghost predicate OnlyGrew(before: seq<Key>, was: Records, order: seq<Key>, records: Records, touched: Option<set<Key>>) {
    touched.Some? && before <= order && forall k :: k in touched.value ==> !VerstrMoved(before, was, records, k)
  }

  lemma NotMoved(keys: seq<Key>, was: Records, records: Records, k: Key)
    requires k !in keys
    ensures !VerstrMoved(keys, was, records, k)
  {
  }

  lemma ListedVerstr(keys: seq<Key>, was: Records, records: Records, list: seq<Row>, at: nat)
    requires at < |keys| && Runs(keys, was) && Runs(keys, records) && RowsRight(list, keys, was)
    ensures at < |list|
    ensures VerstrMoved(keys, was, records, keys[at]) <==> records[keys[at]].meta.value.verstr != list[at].meta.verstr
  {
    assert RowRight(list[at], at + 1, was[keys[at]]);
  }

  /** The keys whose record is not touched have it as it was. */
  ghost predicate Untouched(order: seq<Key>, was: Records, records: Records, touched: set<Key>) {
    forall i :: 0 <= i < |order| && order[i] in records && order[i] !in touched ==>
      order[i] in was && records[order[i]] == was[order[i]]
  }

  /** A key of the list patched, if touched and not left to do. */
  ghost predicate PatchedKey(was: Records, now: Records, touched: set<Key>, left: set<Key>, records: Records,
                             keys: seq<Key>, k: Key) {
    k in keys ==> k in now && (if k in touched && k !in left then k in records && now[k] == records[k]
                               else k in was && now[k] == was[k])
  }

  lemma SomeKey(keys: set<Key>)
    ensures keys == {} || exists k :: k in keys
  {
    if forall k :: k !in keys {
      assert keys == {};
    }
  }

  lemma NotInList(keys: seq<Key>, was: Records, list: seq<Row>, pos: map<Key, nat>, key: Key)
    requires Runs(keys, was) && ListRight(keys, was, list, pos) && key !in pos
    ensures key !in keys
  {
  }

  lemma InList(keys: seq<Key>, was: Records, records: Records, list: seq<Row>, pos: map<Key, nat>, key: Key)
    requires Runs(keys, was) && Runs(keys, records) && ListRight(keys, was, list, pos) && key in pos
    ensures pos[key] < |keys| == |list| && keys[pos[key]] == key && key in records && records[key].meta.Some?
    ensures list[pos[key]].meta.verstr == VerstrAt(keys, was, pos[key])
  {
  }

  lemma FitsAgain(keys: seq<Key>, was: Records, records: Records, rows: map<Key, Lean>, at: nat)
    requires Runs(keys, was) && Runs(keys, records) && AllKnown(keys, records) && CacheRight(rows, records)
    requires at < |keys| && records[keys[at]].meta.value.verstr == VerstrAt(keys, was, at)
    ensures Fits(keys, was, at, keys[at], records[keys[at]])
    ensures KnownSides(records[keys[at]].fold.sides) && CachedRight(rows, keys[at], records[keys[at]])
    ensures WithKey(keys, at, keys[at]) == keys
  {
  }

  lemma FitsNext(order: seq<Key>, keys: seq<Key>, was: Records, records: Records, rows: map<Key, Lean>, i: nat)
    requires Runs(order, records) && AllKnown(order, records) && CacheRight(rows, records)
    requires i < |order| && keys == order[..i] && SameRecords(keys, was, records)
    ensures order[i] in records && records[order[i]].meta.Some? && i == |keys|
    ensures Fits(keys, was, i, order[i], records[order[i]])
    ensures KnownSides(records[order[i]].fold.sides) && CachedRight(rows, order[i], records[order[i]])
  {
    forall j | 0 <= j < i ensures VerstrAt(keys, was, j) != records[order[i]].meta.value.verstr {
      assert keys[j] == order[j] && was[keys[j]] == records[order[j]];
      assert VerstrAt(order, records, j) != VerstrAt(order, records, i);
    }
  }

  lemma StillCached(was: map<Key, Lean>, rows: map<Key, Lean>, records: Records, key: Key, idx: nat)
    requires CacheRight(was, records) && key in records && records[key].meta.Some?
    requires rows == was[key := LeanRow(idx, records[key])]
    ensures CacheRight(rows, records)
  {
    forall k | k in rows && k in records && records[k].meta.Some? ensures CachedRight(rows, k, records[k]) {
      assert k != key ==> CachedRight(was, k, records[k]);
    }
  }

  lemma SameAndNext(order: seq<Key>, i: nat, before: Records, was: Records, records: Records, keys: seq<Key>)
    requires i < |order| && order[i] in records && was == before[order[i] := records[order[i]]]
    requires SameRecords(order[..i], before, records) && keys == WithKey(order[..i], i, order[i])
    ensures keys == order[..i + 1] && SameRecords(keys, was, records)
  {
  }

  lemma PatchOne(was: Records, before: Records, now: Records, touched: set<Key>, prior: set<Key>,
                 records: Records, keys: seq<Key>, key: Key)
    requires forall k :: PatchedKey(was, before, touched, prior, records, keys, k)
    requires key in prior && prior <= touched && (key in keys ==> key in records)
    requires now == if key in keys then before[key := records[key]] else before
    ensures forall k :: PatchedKey(was, now, touched, prior - {key}, records, keys, k)
  {
    forall k ensures PatchedKey(was, now, touched, prior - {key}, records, keys, k) {
      assert PatchedKey(was, before, touched, prior, records, keys, k);
    }
  }

  lemma PatchedAll(keys: seq<Key>, was: Records, now: Records, touched: set<Key>, records: Records)
    requires Untouched(keys, was, records, touched) && Runs(keys, records)
    requires forall k :: PatchedKey(was, now, touched, {}, records, keys, k)
    ensures SameRecords(keys, now, records)
  {
    forall i | 0 <= i < |keys| ensures keys[i] in now && now[keys[i]] == records[keys[i]] {
      assert PatchedKey(was, now, touched, {}, records, keys, keys[i]);
    }
  }

  lemma PrefixRuns(some: seq<Key>, order: seq<Key>, records: Records)
    requires Runs(order, records) && AllKnown(order, records) && |some| <= |order| && order[..|some|] == some
    ensures Runs(some, records) && AllKnown(some, records)
  {
    assert forall i :: 0 <= i < |some| ==> some[i] == order[i] && VerstrAt(some, records, i) == VerstrAt(order, records, i);
  }
}

/**
 Publishing an index's records (`index._apply`, `_publish`, `_sorted_keys`, `index_bulk`):
 refreshes add, change, re-describe and remove records; what changed is held back while
 a bulk load goes on, then the order is patched and the next snapshot made from it.

 Main result: whatever refreshes went before and however long changes were held back,
 what `Index.PublishPending` publishes is the snapshot of all records (`IsSnapshot`) in
 the order of their timestamps and keys (`IsOrder`); held back, the published one stays
 as it was. Asked of the records: no two of them have one verstr, and a refresh says
 what it changed (`OkResult`).
 */
module IndexPublish {
  import opened GoalCounting
  import opened SnapshotRows

  // ------------------------------------------------------------------------ order

  /** A record's place in storage order. */
  datatype Stamp = Stamp(ts: int, key: Key)

  predicate Before(a: Stamp, b: Stamp) { a.ts < b.ts || (a.ts == b.ts && a.key < b.key) }

  ghost predicate Rising(stamps: seq<Stamp>) {
    forall i, j :: 0 <= i < j < |stamps| ==> Before(stamps[i], stamps[j])
  }

  predicate IsStamp(records: Records, s: Stamp) {
    s.key in records && records[s.key].meta.Some? && records[s.key].meta.value.ts == s.ts
  }

  function KeysOf(stamps: seq<Stamp>): seq<Key> { seq(|stamps|, i requires 0 <= i < |stamps| => stamps[i].key) }

  /** The stamps of all runs, in order. */
  ghost predicate StampsRight(stamps: seq<Stamp>, records: Records) {
    Rising(stamps) && forall s :: s in stamps <==> IsStamp(records, s)
  }

  /** All runs by timestamp, then key. */
  ghost predicate IsOrder(order: seq<Key>, records: Records) {
    exists stamps :: StampsRight(stamps, records) && order == KeysOf(stamps)
  }

  function With(stamps: seq<Stamp>, at: nat, s: Stamp): seq<Stamp>
    requires at <= |stamps|
  {
    stamps[..at] + [s] + stamps[at..]
  }

  /** A stamp bisected into place keeps the order. */
  lemma InsertedRises(stamps: seq<Stamp>, at: nat, s: Stamp)
    requires Rising(stamps) && s !in stamps && at <= |stamps|
    requires forall i :: 0 <= i < at ==> !Before(s, stamps[i])
    requires forall i :: at <= i < |stamps| ==> Before(s, stamps[i])
    ensures Rising(With(stamps, at, s))
    ensures forall x :: x in With(stamps, at, s) <==> x in stamps || x == s
  {
    assert stamps == stamps[..at] + stamps[at..];
    forall i | 0 <= i < at ensures Before(stamps[i], s) {
      assert stamps[i] in stamps;
    }
  }

  method BisectRight(stamps: seq<Stamp>, s: Stamp) returns (lo: nat)
    requires Rising(stamps)
    ensures lo <= |stamps| && (forall i :: 0 <= i < lo ==> !Before(s, stamps[i]))
    ensures forall i :: lo <= i < |stamps| ==> Before(s, stamps[i])
  {
    lo := 0;
    var hi := |stamps|;
    while lo < hi
      invariant lo <= hi <= |stamps|
      invariant forall i :: 0 <= i < lo ==> !Before(s, stamps[i])
      invariant forall i :: hi <= i < |stamps| ==> Before(s, stamps[i])
    {
      var mid := (lo + hi) / 2;
      if Before(s, stamps[mid]) {
        hi := mid;
      } else {
        lo := mid + 1;
      }
    }
  }

  /** The stamps sorted (`sorted`, here by insertion). */
  method SortAll(records: Records) returns (stamps: seq<Stamp>)
    ensures StampsRight(stamps, records)
  {
    stamps := [];
    var left := records.Keys;
    while left != {}
      invariant left <= records.Keys && Rising(stamps)
      invariant forall s :: s in stamps <==> IsStamp(records, s) && s.key !in left
      decreases left
    {
      SomeKey(left);
      var key :| key in left;
      left := left - {key};
      if records[key].meta.Some? {
        var s := Stamp(records[key].meta.value.ts, key);
        var at := BisectRight(stamps, s);
        InsertedRises(stamps, at, s);
        stamps := With(stamps, at, s);
      }
    }
  }

  /** The runs among the new records, in the order they came. */
  ghost predicate NewStamps(stamps: seq<Stamp>, new_: seq<Key>, records: Records, s: Stamp) {
    IsStamp(records, s) ==> s in stamps || s.key in new_
  }

  /** The stamps are the runs' but for those of `new_`, none of which is among them. */
  ghost predicate StampsLack(stamps: seq<Stamp>, new_: seq<Key>, records: Records) {
    && Rising(stamps) && (forall s :: s in stamps ==> IsStamp(records, s))
    && (forall s :: NewStamps(stamps, new_, records, s))
    && (forall i :: 0 <= i < |new_| ==> new_[i] in records && forall s :: s in stamps ==> s.key != new_[i])
    && (forall i, j :: 0 <= i < j < |new_| ==> new_[i] != new_[j])
  }

  /** New records put in one at a time. */
  method InsertNew(stamps: seq<Stamp>, new_: seq<Key>, records: Records) returns (now: seq<Stamp>, order: seq<Key>)
    requires StampsLack(stamps, new_, records)
    ensures StampsRight(now, records) && order == KeysOf(now)
  {
    now, order := stamps, KeysOf(stamps);
    assert new_[0..] == new_;
    for i := 0 to |new_|
      invariant StampsLack(now, new_[i..], records) && order == KeysOf(now)
    {
      var key := new_[i];
      if records[key].meta.Some? {
        var s := Stamp(records[key].meta.value.ts, key);
        var at := BisectRight(now, s);
        OneInserted(now, new_, i, records, at, s);
        assert KeysOf(With(now, at, s)) == order[..at] + [key] + order[at..];
        now, order := With(now, at, s), order[..at] + [key] + order[at..];
      } else {
        NoneInserted(now, new_, i, records);
      }
    }
    forall s | IsStamp(records, s) ensures s in now {
      assert NewStamps(now, new_[|new_|..], records, s);
    }
  }

  lemma OneInserted(stamps: seq<Stamp>, new_: seq<Key>, i: nat, records: Records, at: nat, s: Stamp)
    requires i < |new_| && StampsLack(stamps, new_[i..], records) && IsStamp(records, s) && s.key == new_[i]
    requires at <= |stamps| && (forall j :: 0 <= j < at ==> !Before(s, stamps[j]))
    requires forall j :: at <= j < |stamps| ==> Before(s, stamps[j])
    ensures StampsLack(With(stamps, at, s), new_[i + 1..], records)
  {
    var more, rest := With(stamps, at, s), new_[i + 1..];
    assert new_[i..][0] == new_[i] && s !in stamps;
    InsertedRises(stamps, at, s);
    forall x ensures NewStamps(more, rest, records, x) {
      assert NewStamps(stamps, new_[i..], records, x);
      assert new_[i..] == [new_[i]] + rest;
    }
    forall j | 0 <= j < |rest| ensures rest[j] in records && forall x :: x in more ==> x.key != rest[j] {
      assert rest[j] == new_[i..][j + 1];
    }
    assert forall j :: 0 <= j < |rest| ==> rest[j] == new_[i..][j + 1];
  }

  lemma NoneInserted(stamps: seq<Stamp>, new_: seq<Key>, i: nat, records: Records)
    requires i < |new_| && StampsLack(stamps, new_[i..], records) && records[new_[i]].meta.None?
    ensures StampsLack(stamps, new_[i + 1..], records)
  {
    var rest := new_[i + 1..];
    forall x ensures NewStamps(stamps, rest, records, x) {
      assert NewStamps(stamps, new_[i..], records, x);
      assert new_[i..] == [new_[i]] + rest;
    }
    assert forall j :: 0 <= j < |rest| ==> rest[j] == new_[i..][j + 1];
  }

  // ---------------------------------------------------------------- what is pending

  /** Changes not published yet: new keys, touched ones, whether some record may have moved
      in the order, and whether some went. */
  datatype Pending = Pending(new_: seq<Key>, touched: set<Key>, resort: bool, removed: bool)

  const NOTHING := Pending([], {}, false, false)

  function Both(a: Pending, b: Pending): Pending {
    Pending(a.new_ + b.new_, a.touched + b.touched, a.resort || b.resort, a.removed || b.removed)
  }

  /** The published key's record is there, and as published unless touched. */
  ghost predicate KeptRight(was: Records, records: Records, touched: set<Key>, key: Key) {
    key in records && key in was && (key !in touched ==> records[key] == was[key])
  }

  /** What is pending says how the records differ from those published, `order` their keys
      and `stamps` their places. */
  ghost predicate PendingRight(order: Option<seq<Key>>, stamps: seq<Stamp>, was: Records, records: Records,
                               p: Pending) {
    && (p.removed ==> p.resort) && (forall i :: 0 <= i < |p.new_| ==> p.new_[i] in p.touched)
    && (p.resort && !p.removed ==> p.touched != {})
    && (order.Some? ==>
          && order.value == KeysOf(stamps)
          && (!p.removed ==> forall i :: 0 <= i < |order.value| ==> KeptRight(was, records, p.touched, order.value[i]))
          && (!p.resort ==> StampsLack(stamps, p.new_, records)))
  }

  /** A record as a refresh hands it back: its folded content, metadata and run state moved
      or did not. No record: nothing to change. */
  datatype Result = Result(key: Key, record: Option<Record>, dirty: bool, moved: bool, stateMoved: bool)

  /** A refresh says what it changed. */
  ghost predicate OkResult(records: Records, r: Result) {
    r.record.Some? ==>
      && KnownSides(r.record.value.fold.sides)
      && (r.key !in records ==> r.dirty)
      && (r.key in records ==>
            && (r.moved ==> r.dirty)
            && (!r.moved ==> r.record.value.meta == records[r.key].meta)
            && (!r.dirty ==> r.record.value.fold == records[r.key].fold)
            && (!r.stateMoved ==> r.record.value.state == records[r.key].state
                                  && r.record.value.observed == records[r.key].observed))
  }

  function Applied(records: Records, r: Result): Records {
    if r.record.Some? then records[r.key := r.record.value] else records
  }

  /** What a result adds to what is pending. */
  function Changes(records: Records, r: Result): Pending {
    if r.record.None? then NOTHING
    else if r.key !in records then Pending([r.key], {r.key}, false, false)
    else Pending([], if r.dirty || r.stateMoved then {r.key} else {}, r.moved, false)
  }

  lemma ResultKeeps(order: Option<seq<Key>>, stamps: seq<Stamp>, was: Records, records: Records, p: Pending, r: Result)
    requires PendingRight(order, stamps, was, records, p) && OkResult(records, r)
    ensures PendingRight(order, stamps, was, Applied(records, r), Both(p, Changes(records, r)))
  {
    var now, q := Applied(records, r), Both(p, Changes(records, r));
    assert p.new_ + [] == p.new_;
    if order.Some? && r.record.Some? {
      forall i | !q.removed && 0 <= i < |order.value| ensures KeptRight(was, now, q.touched, order.value[i]) {
        assert KeptRight(was, records, p.touched, order.value[i]);
      }
      if !q.resort {
        ResultKeepsStamps(stamps, p.new_, records, r);
      }
    }
  }

  lemma ResultKeepsStamps(stamps: seq<Stamp>, new_: seq<Key>, records: Records, r: Result)
    requires StampsLack(stamps, new_, records) && OkResult(records, r) && r.record.Some?
    requires r.key in records ==> !r.moved
    ensures StampsLack(stamps, new_ + Changes(records, r).new_, Applied(records, r))
  {
    var more, now := new_ + Changes(records, r).new_, Applied(records, r);
    forall s ensures NewStamps(stamps, more, now, s) {
      assert NewStamps(stamps, new_, records, s);
    }
    forall s | s in stamps ensures IsStamp(now, s) {
      assert IsStamp(records, s);
    }
    forall i | 0 <= i < |more| ensures more[i] in now && forall s :: s in stamps ==> s.key != more[i] {
      if i < |new_| {
        assert more[i] == new_[i];
      }
    }
  }

  lemma RemovalKeeps(order: Option<seq<Key>>, stamps: seq<Stamp>, was: Records, records: Records, p: Pending,
                     gone: set<Key>)
    requires PendingRight(order, stamps, was, records, p) && gone != {}
    ensures PendingRight(order, stamps, was, records - gone, Both(p, Pending([], {}, true, true)))
  {
  }

  class BulkPublish {
    var new_: seq<Key>
    var touched: set<Key>
    var resort: bool
    var removed: bool

    function Held(): Pending
      reads this
    {
      Pending(new_, touched, resort, removed)
    }

    constructor ()
      ensures Held() == NOTHING
    {
      new_, touched, resort, removed := [], {}, false, false;
    }

    method Add(more: seq<Key>, gone: set<Key>, redescribed: bool, changed: set<Key>)
      modifies this
      ensures Held() == Both(old(Held()), Pending(more, changed, redescribed || gone != {}, gone != {}))
    {
      new_ := new_ + more;
      touched := touched + changed;
      resort := resort || redescribed || gone != {};
      removed := removed || gone != {};
    }

    /** What to publish now: the new keys, whether to sort all, and the touched keys unless a
        record went. */
    method Take() returns (more: seq<Key>, sort: bool, changed: Option<set<Key>>)
      modifies this
      ensures more == old(Held()).new_ && sort == old(Held()).resort
      ensures changed == if old(Held()).removed then None else Some(old(Held()).touched)
      ensures Held() == NOTHING
    {
      more, sort, changed := new_, resort, if removed then None else Some(touched);
      new_, touched, resort, removed := [], {}, false, false;
    }
  }

  // -------------------------------------------------------------------- the index

  /** No two runs of a verstr. */
  ghost predicate Distinct(records: Records) {
    forall a, b :: a in records && b in records && a != b && records[a].meta.Some? && records[b].meta.Some? ==>
      records[a].meta.value.verstr != records[b].meta.value.verstr
  }

  ghost predicate Known(records: Records) {
    forall k :: k in records ==> KnownSides(records[k].fold.sides)
  }

  lemma OrderRuns(stamps: seq<Stamp>, records: Records)
    requires StampsRight(stamps, records) && Distinct(records) && Known(records)
    ensures Runs(KeysOf(stamps), records) && AllKnown(KeysOf(stamps), records)
  {
    var order := KeysOf(stamps);
    forall i | 0 <= i < |order| ensures order[i] in records && records[order[i]].meta.Some? {
      assert stamps[i] in stamps && IsStamp(records, stamps[i]);
    }
    forall i, j | 0 <= i < j < |order| ensures order[i] != order[j] {
      assert stamps[i] in stamps && stamps[j] in stamps && Before(stamps[i], stamps[j]);
    }
  }

  lemma SnapshotStays(s: Snapshot, order: seq<Key>, was: Records, records: Records)
    requires Runs(order, was) && IsSnapshot(s, order, was) && SameRecords(order, was, records)
    ensures Runs(order, records) && IsSnapshot(s, order, records)
  {
    SameRecordsSameParts(s.maps, s.rows, order, was, records);
  }

  class Index {
    var records: Records
    var order: Option<seq<Key>>
    var stamps: seq<Stamp>
    const rows: RowCache
    const bulk: BulkPublish
    var snapshot: Option<Snapshot>

    ghost predicate Valid()
      reads this, rows, rows.maps, rows.maps.goals, bulk
    {
      && rows.Valid() && Known(records) && CacheRight(rows.rows, records)
      && PendingRight(order, stamps, rows.was, records, bulk.Held())
      && (snapshot.Some? <==> order.Some?)
      && rows.order == (if order.Some? then order.value else [])
      && (snapshot.Some? ==> IsSnapshot(snapshot.value, rows.order, rows.was))
    }

    constructor ()
      ensures Valid() && records == map[] && snapshot == None
      ensures fresh(rows) && fresh(rows.maps) && fresh(rows.maps.goals) && fresh(bulk)
    {
      records, order, stamps, snapshot := map[], None, [], None;
      rows := new RowCache();
      bulk := new BulkPublish();
    }

    /** The keys in storage order: new ones bisected in, or all sorted. */
    method SortedKeys(more: seq<Key>, resort: bool) returns (keys: seq<Key>)
      requires order.Some? && !resort ==> order.value == KeysOf(stamps) && StampsLack(stamps, more, records)
      modifies this`stamps
      ensures StampsRight(stamps, records) && keys == KeysOf(stamps)
    {
      if order.None? || resort {
        stamps := SortAll(records);
        keys := KeysOf(stamps);
      } else {
        stamps, keys := InsertNew(stamps, more, records);
      }
    }

    /** A refresh's results and removals, then a publish unless held back (a bulk load not
        due for one). */
    method Apply(results: seq<Result>, gone: set<Key>, hold: bool)
      requires Valid() && OkResults(records, results) && gone <= AppliedAll(records, results).Keys
      requires Distinct(AppliedAll(records, results) - gone)
      modifies this`records, this`order, this`stamps, this`snapshot, rows, rows.maps, rows.maps.goals, bulk
      ensures Valid() && records == AppliedAll(old(records), results) - gone
      ensures rows.maps == old(rows.maps) || fresh(rows.maps)
      ensures rows.maps.goals == old(rows.maps.goals) || fresh(rows.maps.goals)
      ensures hold ==> snapshot == old(snapshot) && order == old(order)
      ensures !hold ==> Current()
    {
      var p := ApplyResults(results);
      Remove(gone, p);
      if !hold {
        PublishPending();
      }
    }

    /** The published snapshot is of all records, in order. */
    ghost predicate Current()
      reads this
    {
      && snapshot.Some? && order.Some? && IsOrder(order.value, records)
      && Runs(order.value, records) && IsSnapshot(snapshot.value, order.value, records)
    }

    /** The state with `p` pending besides what is held back. */
    ghost predicate Refreshing(p: Pending)
      reads this, rows, rows.maps, rows.maps.goals, bulk
    {
      && rows.Valid() && Known(records) && CacheRight(rows.rows, records)
      && PendingRight(order, stamps, rows.was, records, Both(bulk.Held(), p))
      && (snapshot.Some? <==> order.Some?)
      && rows.order == (if order.Some? then order.value else [])
      && (snapshot.Some? ==> IsSnapshot(snapshot.value, rows.order, rows.was))
    }

    method ApplyResults(results: seq<Result>) returns (p: Pending)
      requires Valid() && OkResults(records, results)
      modifies this`records, rows`rows
      ensures Refreshing(p) && !p.removed && records == AppliedAll(old(records), results)
    {
      p := NOTHING;
      NothingPending(bulk.Held());
      assert results[..0] == [];
      for i := 0 to |results|
        invariant Refreshing(p) && !p.removed && records == AppliedAll(old(records), results[..i])
      {
        assert results[..i + 1][..i] == results[..i];
        OkAt(old(records), results, i);
        p := ApplyOne(results[i], p);
      }
      assert results[..|results|] == results;
    }

    method ApplyOne(r: Result, p: Pending) returns (q: Pending)
      requires Refreshing(p) && OkResult(records, r)
      modifies this`records, rows`rows
      ensures q == Both(p, Changes(old(records), r)) && Refreshing(q) && records == Applied(old(records), r)
    {
      q := Both(p, Changes(records, r));
      BothAssociates(bulk.Held(), p, Changes(records, r));
      ResultKeeps(order, stamps, rows.was, records, Both(bulk.Held(), p), r);
      if r.record.None? {
        return;
      }
      ghost var was, cached := records, rows.rows;
      if r.dirty {
        rows.Pop(r.key);
      }
      records := records[r.key := r.record.value];
      CacheAfter(cached, rows.rows, was, r);
    }

    method Remove(gone: set<Key>, p: Pending)
      requires Refreshing(p) && !p.removed && gone <= records.Keys
      modifies this`records, rows`rows, bulk
      ensures Valid() && records == old(records) - gone
    {
      ghost var was, held := records, bulk.Held();
      if gone != {} {
        RemovalKeeps(order, stamps, rows.was, records, Both(held, p), gone);
        BothAssociates(held, p, Pending([], {}, true, true));
      } else {
        assert records - gone == records;
      }
      records := records - gone;
      PopAll(gone);
      bulk.Add(p.new_, gone, p.resort, p.touched);
      assert bulk.Held() == Both(held, if gone != {} then Both(p, Pending([], {}, true, true)) else p) by {
        assert p.new_ + [] == p.new_ && p.touched + {} == p.touched;
      }
    }

    method PopAll(gone: set<Key>)
      modifies rows`rows
      ensures rows.rows == old(rows.rows) - gone
    {
      var left := gone;
      while left != {}
        invariant left <= gone && rows.rows == old(rows.rows) - (gone - left)
        decreases left
      {
        SomeKey(left);
        var key :| key in left;
        rows.Pop(key);
        left := left - {key};
      }
    }

    /** Publishes what is pending. */
    method PublishPending()
      requires Valid() && Distinct(records)
      modifies this`order, this`stamps, this`snapshot, rows, rows.maps, rows.maps.goals, bulk
      ensures Valid() && Current()
      ensures rows.maps == old(rows.maps) || fresh(rows.maps)
      ensures rows.maps.goals == old(rows.maps.goals) || fresh(rows.maps.goals)
    {
      hide *;
      HeldParts();
      ghost var held, was := bulk.Held(), order;
      var more, resort, touched := bulk.Take();
      Reorder(more, resort);
      OrderRuns(stamps, records);
      StillPublished(held, touched, was);
      Materialize(touched);
      FreshPending(order, stamps, rows.was, records);
      NowValid();
    }

    /** What the state says of what is held back. */
    lemma HeldParts()
      requires Valid()
      ensures order.Some? && !bulk.Held().resort ==>
                order.value == KeysOf(stamps) && StampsLack(stamps, bulk.Held().new_, records)
      ensures Published(order) && rows.Valid() && Known(records) && CacheRight(rows.rows, records)
      ensures HeldRight(bulk.Held(), order)
    {
      assert bulk.new_ != [] ==> bulk.new_[0] in bulk.touched;
    }

    /** The snapshot published is of the records as they were then. */
    ghost predicate Published(was: Option<seq<Key>>)
      reads this`snapshot, rows`order, rows`was
    {
      && (snapshot.Some? <==> was.Some?) && rows.order == (if was.Some? then was.value else [])
      && (snapshot.Some? ==> Runs(rows.order, rows.was) && IsSnapshot(snapshot.value, rows.order, rows.was))
    }

    /** Unless a record went, those of the order are as published but for the touched ones;
        nothing new or to be sorted is pending with none touched. */
    ghost predicate HeldRight(held: Pending, was: Option<seq<Key>>)
      reads this`records, rows`was
    {
      && (held.new_ != [] || held.resort ==> held.removed || held.touched != {})
      && (was.Some? && !held.removed ==>
            forall i :: 0 <= i < |was.value| ==> KeptRight(rows.was, records, held.touched, was.value[i]))
    }

    /** Brings the order to the records. */
    method Reorder(more: seq<Key>, resort: bool)
      requires order.Some? && !resort ==> order.value == KeysOf(stamps) && StampsLack(stamps, more, records)
      modifies this`order, this`stamps
      ensures order.Some? && order.value == KeysOf(stamps) && StampsRight(stamps, records)
      ensures old(order).Some? && more == [] && !resort ==> order == old(order)
    {
      if more != [] || resort || order.None? {
        var keys := SortedKeys(more, resort);
        order := Some(keys);
      } else {
        NoneLacking(stamps, records);
      }
    }

    /** What the pending changes leave of the published records, for the order as it is now. */
    lemma StillPublished(held: Pending, touched: Option<set<Key>>, was: Option<seq<Key>>)
      requires order.Some? && touched == (if held.removed then None else Some(held.touched))
      requires Published(was) && HeldRight(held, was) && rows.Valid()
      requires was.Some? && held.new_ == [] && !held.resort ==> order == was
      ensures touched.Some? ==> Untouched(rows.order, rows.was, records, touched.value)
      ensures touched.Some? && touched.value == {} && snapshot.Some? ==>
                rows.order == order.value && Runs(order.value, rows.was) && IsSnapshot(snapshot.value, order.value, rows.was)
                && SameRecords(order.value, rows.was, records)
    {
      if was.Some? && !held.removed {
        forall i | 0 <= i < |rows.order| ensures KeptRight(rows.was, records, held.touched, rows.order[i]) {
        }
      }
    }

    /** Makes the next snapshot, unless no record changed. */
    method Materialize(touched: Option<set<Key>>)
      requires order.Some? && Runs(order.value, records) && AllKnown(order.value, records)
      requires CacheRight(rows.rows, records)
      requires rows.Valid() && (touched.Some? ==> Untouched(rows.order, rows.was, records, touched.value))
      requires touched.Some? && touched.value == {} && snapshot.Some? ==>
                 rows.order == order.value && Runs(order.value, rows.was) && IsSnapshot(snapshot.value, order.value, rows.was)
                 && SameRecords(order.value, rows.was, records)
      modifies this`snapshot, rows, rows.maps, rows.maps.goals
      ensures rows.Valid() && rows.order == order.value && SameRecords(order.value, rows.was, records)
      ensures rows.maps == old(rows.maps) || fresh(rows.maps)
      ensures rows.maps.goals == old(rows.maps.goals) || fresh(rows.maps.goals)
      ensures CacheRight(rows.rows, records)
      ensures snapshot.Some? && IsSnapshot(snapshot.value, order.value, records)
    {
      if touched.None? || touched.value != {} || snapshot.None? {
        var s := rows.TakeSnapshot(order.value, records, touched);
        snapshot := Some(s);
      } else {
        SnapshotStays(snapshot.value, rows.order, rows.was, records);
      }
    }

    lemma NowValid()
      requires rows.Valid() && Known(records) && CacheRight(rows.rows, records) && bulk.Held() == NOTHING
      requires order.Some? && StampsRight(stamps, records) && order.value == KeysOf(stamps)
      requires rows.order == order.value && SameRecords(order.value, rows.was, records) && Runs(order.value, records)
      requires snapshot.Some? && IsSnapshot(snapshot.value, order.value, records)
      requires PendingRight(order, stamps, rows.was, records, NOTHING)
      ensures Valid() && Current()
    {
      assert SameRecords(order.value, records, rows.was);
      SnapshotStays(snapshot.value, order.value, records, rows.was);
    }
  }

  lemma NoneLacking(stamps: seq<Stamp>, records: Records)
    requires StampsLack(stamps, [], records)
    ensures StampsRight(stamps, records)
  {
    forall s | IsStamp(records, s) ensures s in stamps {
      assert NewStamps(stamps, [], records, s);
    }
  }

  /** Nothing is pending once all is published. */
  lemma FreshPending(order: Option<seq<Key>>, stamps: seq<Stamp>, was: Records, records: Records)
    requires order.Some? && order.value == KeysOf(stamps) && StampsRight(stamps, records)
    requires SameRecords(order.value, was, records)
    ensures PendingRight(order, stamps, was, records, NOTHING)
  {
  }

  function AppliedAll(records: Records, results: seq<Result>): Records {
    if results == [] then records else Applied(AppliedAll(records, results[..|results| - 1]), results[|results| - 1])
  }

  /** The record of the last result that brings one for the key. */
  function LastBrought(results: seq<Result>, k: Key): Option<Record> {
    if results == [] then None
    else
      var r := results[|results| - 1];
      if r.key == k && r.record.Some? then r.record else LastBrought(results[..|results| - 1], k)
  }

  /** After a refresh a key has that record, else what it had. */
  lemma {:induction false} LastResultHolds(records: Records, results: seq<Result>, k: Key)
    ensures var after, last := AppliedAll(records, results), LastBrought(results, k);
            && (k in after <==> last.Some? || k in records)
            && (k in after ==> after[k] == if last.Some? then last.value else records[k])
  {
    if results != [] { LastResultHolds(records, results[..|results| - 1], k); }
  }

  ghost predicate OkResults(records: Records, results: seq<Result>) {
    forall i :: 0 <= i < |results| ==> OkAfter(records, results, i)
  }

  ghost predicate OkAfter(records: Records, results: seq<Result>, i: nat)
    requires i < |results|
  {
    OkResult(AppliedAll(records, results[..i]), results[i])
  }

  lemma OkAt(records: Records, results: seq<Result>, i: nat)
    requires OkResults(records, results) && i < |results|
    ensures OkResult(AppliedAll(records, results[..i]), results[i])
  {
    assert OkAfter(records, results, i);
  }

  lemma NothingPending(held: Pending)
    ensures Both(held, NOTHING) == held
  {
  }

  lemma BothAssociates(a: Pending, b: Pending, c: Pending)
    ensures Both(Both(a, b), c) == Both(a, Both(b, c))
  {
    assert a.new_ + b.new_ + c.new_ == a.new_ + (b.new_ + c.new_);
    assert a.touched + b.touched + c.touched == a.touched + (b.touched + c.touched);
  }

  lemma CacheAfter(was: map<Key, Lean>, rows: map<Key, Lean>, records: Records, r: Result)
    requires CacheRight(was, records) && OkResult(records, r) && r.record.Some?
    requires rows == if r.dirty then was - {r.key} else was
    ensures CacheRight(rows, Applied(records, r))
  {
    var now := Applied(records, r);
    forall k | k in rows && k in now && now[k].meta.Some? ensures CachedRight(rows, k, now[k]) {
      if k in records && records[k].meta.Some? {
        assert CachedRight(was, k, records[k]);
      }
    }
  }
}

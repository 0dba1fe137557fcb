/**
 What a refresh could not persist yet (`PendingSave`): its changes are saved a
 chunk of records per store transaction, any of which may be refused or raise,
 and what did not make it is kept and merged with the next refresh's changes.

 The main results: whatever fails, the store overlaid with what is pending is
 what saving every call in full would have stored (`RunOverlays`), a save that
 answers true leaves nothing pending, and a key-value put rides only with the
 last chunk, so it never lands before the records it vouches for.
 */
module IndexPending {
  import IndexStore

  type Key = IndexStore.Key
  type Option<+T> = IndexStore.Option<T>

  /** The store's content: records, run states, and the one key-value put tracked. */
  datatype Content<R, S, V> = Content(records: map<Key, R>, states: map<Key, S>, kv: Option<V>)

  /** Changes to save: what one refresh hands over, or what is pending. */
  datatype Batch<R, S> = Batch(changed: map<Key, R>, removed: set<Key>, states: map<Key, S>)

  function Nothing<R, S>(): Batch<R, S> { Batch(map[], {}, map[]) }

  /** A committed transaction: the upserts, then the removals. */
  function Applied<R, S, V>(c: Content<R, S, V>, b: Batch<R, S>): Content<R, S, V> {
    c.(records := (c.records + b.changed) - b.removed, states := (c.states + b.states) - b.removed)
  }

  function Only<T>(records: map<Key, T>, keys: set<Key>): map<Key, T> {
    map k | k in records && k in keys :: records[k]
  }

  function Part<R, S>(b: Batch<R, S>, keys: set<Key>, last: bool): Batch<R, S> {
    Batch(Only(b.changed, keys), if last then b.removed else {}, Only(b.states, keys))
  }

  /** The pending changes with a newer batch's merged in. */
  function Merged<R, S>(p: Batch<R, S>, b: Batch<R, S>): Batch<R, S> {
    Batch((p.changed - b.removed) + b.changed,
          (p.removed - b.changed.Keys) + b.removed,
          (p.states - b.removed) + b.states)
  }

  // ---------------------------------------------------------------- merging

  /** The keys whose run state merging gets wrong: re-added by `b` over a pending
      removal without a run state of their own, so that an old one outlives the
      removal; or given a run state alone although their removal is pending. */
  function Misjudged<R, S, V>(c: Content<R, S, V>, p: Batch<R, S>, b: Batch<R, S>): set<Key> {
    var revived := (b.changed.Keys * p.removed) - b.states.Keys - b.removed;
    revived * (c.states.Keys + p.states.Keys)
    + ((b.states.Keys * p.removed) - b.changed.Keys - b.removed)
  }

  /** Saving the merged changes at once stores the records that saving one batch after
      the other would. */
  lemma MergeKeepsRecords<R, S, V>(c: Content<R, S, V>, p: Batch<R, S>, b: Batch<R, S>)
    ensures Applied(c, Merged(p, b)).records == Applied(Applied(c, p), b).records
  {
    var once, twice := Applied(c, Merged(p, b)).records, Applied(Applied(c, p), b).records;
    forall k ensures k in once <==> k in twice
             ensures k in once ==> once[k] == twice[k] {
    }
  }

  /** Run states agree too if and only if none is misjudged. */
  lemma MergeKeepsStates<R, S, V>(c: Content<R, S, V>, p: Batch<R, S>, b: Batch<R, S>)
    ensures Applied(c, Merged(p, b)).states == Applied(Applied(c, p), b).states
            <==> Misjudged(c, p, b) == {}
  {
    var once, twice := Applied(c, Merged(p, b)).states, Applied(Applied(c, p), b).states;
    var wrong := Misjudged(c, p, b);
    forall k
      ensures k in wrong ==> (k in once) != (k in twice)
      ensures k !in wrong ==> (k in once <==> k in twice) && (k in once ==> once[k] == twice[k])
    {
      MergedState(c, p, b, k);
    }
    if wrong != {} {
      var k :| k in wrong;
      assert (k in once) != (k in twice);
    }
  }

  lemma MergedState<R, S, V>(c: Content<R, S, V>, p: Batch<R, S>, b: Batch<R, S>, k: Key)
    ensures var once, twice := Applied(c, Merged(p, b)).states, Applied(Applied(c, p), b).states;
            if k in Misjudged(c, p, b) then (k in once) != (k in twice)
            else (k in once <==> k in twice) && (k in once ==> once[k] == twice[k])
  {
    if k in b.removed {
    } else if k in b.states {
    } else if k in p.removed {
    } else if k in p.states {
    }
  }

  // ---------------------------------------------------------------- chunks

  function KeysIn(parts: seq<seq<Key>>): set<Key> {
    set n, i | 0 <= n < |parts| && 0 <= i < |parts[n]| :: parts[n][i]
  }

  function SetOf(keys: seq<Key>): set<Key> {
    set i | 0 <= i < |keys| :: keys[i]
  }

  lemma {:induction false} KeysInSplits(parts: seq<seq<Key>>)
    requires parts != []
    ensures KeysIn(parts) == SetOf(parts[0]) + KeysIn(parts[1..])
  {
    forall k | k in KeysIn(parts) ensures k in SetOf(parts[0]) + KeysIn(parts[1..]) {
      var n, i :| 0 <= n < |parts| && 0 <= i < |parts[n]| && parts[n][i] == k;
      if n > 0 {
        assert parts[1..][n - 1][i] == k;
      }
    }
    forall k | k in KeysIn(parts[1..]) ensures k in KeysIn(parts) {
      var n, i :| 0 <= n < |parts[1..]| && 0 <= i < |parts[1..][n]| && parts[1..][n][i] == k;
      assert parts[n + 1][i] == k;
    }
  }

  lemma Reapplied<T>(m: map<Key, T>, latest: map<Key, T>, keys: set<Key>, rest: set<Key>, gone: set<Key>,
                     removed: set<Key>)
    requires gone == {} || (gone == removed && rest <= keys)
    ensures (((m + Only(latest, keys)) - gone) + Only(latest, rest)) - removed == (m + Only(latest, keys + rest)) - removed
  {
    var ahead := (((m + Only(latest, keys)) - gone) + Only(latest, rest)) - removed;
    var whole := (m + Only(latest, keys + rest)) - removed;
    forall k ensures k in ahead <==> k in whole
             ensures k in ahead ==> ahead[k] == whole[k] {
    }
  }

  /** A part saved ahead of the rest changes nothing of what everything saved comes to —
      also when it is saved again, its answer having been lost. */
  lemma PartAhead<R, S, V>(c: Content<R, S, V>, b: Batch<R, S>, keys: set<Key>, rest: set<Key>, last: bool)
    requires last ==> rest <= keys
    ensures Applied(Applied(c, Part(b, keys, last)), Part(b, rest, true))
            == Applied(c, Part(b, keys + rest, true))
  {
    var gone := if last then b.removed else {};
    Reapplied(c.records, b.changed, keys, rest, gone, b.removed);
    Reapplied(c.states, b.states, keys, rest, gone, b.removed);
  }

  lemma WholeBatch<R, S>(b: Batch<R, S>, keys: set<Key>)
    requires b.changed.Keys + b.states.Keys <= keys
    ensures Part(b, keys, true) == b
  {
    assert Only(b.changed, keys) == b.changed;
    assert Only(b.states, keys) == b.states;
  }

  // ------------------------------------------------------------------ runs

  /** A store and what is pending beside it. */
  datatype Sides<R, S, V> = Sides(stored: Content<R, S, V>, pending: Batch<R, S>)

  function Overlay<R, S, V>(s: Sides<R, S, V>): Content<R, S, V> {
    Applied(s.stored, s.pending)
  }

  /** What one call of `Save` may do: `saved` is what it answered, false also when it raised. */
  ghost predicate SaveStep<R, S, V>(before: Sides<R, S, V>, b: Batch<R, S>, kv: Option<V>,
                                    after: Sides<R, S, V>, saved: bool)
  {
    var all := Applied(before.stored, Merged(before.pending, b));
    && Overlay(after).records == all.records
    && Overlay(after).states == all.states
    && (saved ==> after.pending == Nothing())
    && after.pending.removed <= Merged(before.pending, b).removed
    && (saved && kv.Some? ==> after.stored.kv == kv)
    && (after.stored.kv != before.stored.kv ==>
          after.stored.kv == kv && after.stored.records == all.records && after.stored.states == all.states)
  }

  function AllApplied<R, S, V>(c: Content<R, S, V>, calls: seq<Batch<R, S>>): Content<R, S, V> {
    if calls == [] then c
    else Applied(AllApplied(c, calls[..|calls| - 1]), calls[|calls| - 1])
  }

  /** What calls did to one key: nothing, took it away, or gave it a value last. */
  datatype Fate<+T> = Untouched | Removed | Given(value: T)

  function RecordFate<R, S>(calls: seq<Batch<R, S>>, k: Key): Fate<R> {
    if calls == [] then Untouched
    else
      var b := calls[|calls| - 1];
      if k in b.removed then Removed else if k in b.changed then Given(b.changed[k])
      else RecordFate(calls[..|calls| - 1], k)
  }

  function StateFate<R, S>(calls: seq<Batch<R, S>>, k: Key): Fate<S> {
    if calls == [] then Untouched
    else
      var b := calls[|calls| - 1];
      if k in b.removed then Removed else if k in b.states then Given(b.states[k])
      else StateFate(calls[..|calls| - 1], k)
  }

  /** The key has what its fate says, or what it had. */
  predicate HasFate<T(==)>(was: map<Key, T>, now: map<Key, T>, k: Key, fate: Fate<T>) {
    match fate
    case Untouched => (k in now <==> k in was) && (k in now ==> now[k] == was[k])
    case Removed => k !in now
    case Given(value) => k in now && now[k] == value
  }

  /** Calls in full leave each key as the last of them that named it did. */
  lemma {:induction false} LastCallDecides<R, S, V>(c: Content<R, S, V>, calls: seq<Batch<R, S>>, k: Key)
    ensures HasFate(c.records, AllApplied(c, calls).records, k, RecordFate(calls, k))
    ensures HasFate(c.states, AllApplied(c, calls).states, k, StateFate(calls, k))
    ensures AllApplied(c, calls).kv == c.kv
  {
    if calls != [] { LastCallDecides(c, calls[..|calls| - 1], k); }
  }

  /** A history of calls: `run[i]` is the state call `i` found, `run[i + 1]` the one it left. */
  ghost predicate IsRun<R, S, V>(run: seq<Sides<R, S, V>>, calls: seq<Batch<R, S>>,
                                 kvs: seq<Option<V>>, answers: seq<bool>)
  {
    && |run| == |calls| + 1 && |kvs| == |calls| == |answers|
    && run[0].pending == Nothing()
    && forall i :: 0 <= i < |calls| ==> SaveStep(run[i], calls[i], kvs[i], run[i + 1], answers[i])
  }

  lemma {:induction false} RunKeepsRecords<R, S, V>(run: seq<Sides<R, S, V>>, calls: seq<Batch<R, S>>,
                                   kvs: seq<Option<V>>, answers: seq<bool>)
    requires IsRun(run, calls, kvs, answers)
    ensures Overlay(run[|calls|]).records == AllApplied(run[0].stored, calls).records
  {
    if calls == [] {
      assert Overlay(run[0]).records == run[0].stored.records;
    } else {
      var n := |calls| - 1;
      RunKeepsRecords(run[..n + 1], calls[..n], kvs[..n], answers[..n]);
      assert SaveStep(run[n], calls[n], kvs[n], run[n + 1], answers[n]);
      MergeKeepsRecords(run[n].stored, run[n].pending, calls[n]);
    }
  }

  ghost predicate NoneMisjudged<R, S, V>(run: seq<Sides<R, S, V>>, calls: seq<Batch<R, S>>)
    requires |run| == |calls| + 1
  {
    forall i :: 0 <= i < |calls| ==> Misjudged(run[i].stored, run[i].pending, calls[i]) == {}
  }

  /** The keys removed by a call and not changed by a later one. */
  function Gone<R, S>(calls: seq<Batch<R, S>>): set<Key> {
    if calls == [] then {}
    else
      var b := calls[|calls| - 1];
      (Gone(calls[..|calls| - 1]) - b.changed.Keys) + b.removed
  }

  /** Of the keys removed before, the calls give a run state to just those they add again. */
  ghost predicate BringStates<R, S>(calls: seq<Batch<R, S>>) {
    forall i, k :: 0 <= i < |calls| && k in Gone(calls[..i]) && k !in calls[i].removed ==>
      (k in calls[i].changed <==> k in calls[i].states)
  }

  lemma {:induction false} PendingIsGone<R, S, V>(run: seq<Sides<R, S, V>>, calls: seq<Batch<R, S>>,
                                 kvs: seq<Option<V>>, answers: seq<bool>, n: nat)
    requires IsRun(run, calls, kvs, answers) && n <= |calls|
    ensures run[n].pending.removed <= Gone(calls[..n])
  {
    if n > 0 {
      PendingIsGone(run, calls, kvs, answers, n - 1);
      assert calls[..n][..n - 1] == calls[..n - 1];
      assert SaveStep(run[n - 1], calls[n - 1], kvs[n - 1], run[n], answers[n - 1]);
    }
  }

  /** Then merging misjudges no run state, whatever failed. */
  lemma NoneMisjudgedIfBrought<R, S, V>(run: seq<Sides<R, S, V>>, calls: seq<Batch<R, S>>,
                                        kvs: seq<Option<V>>, answers: seq<bool>)
    requires IsRun(run, calls, kvs, answers) && BringStates(calls)
    ensures NoneMisjudged(run, calls)
  {
    forall i | 0 <= i < |calls| ensures Misjudged(run[i].stored, run[i].pending, calls[i]) == {} {
      PendingIsGone(run, calls, kvs, answers, i);
      forall k ensures k !in Misjudged(run[i].stored, run[i].pending, calls[i]) {
        if k in run[i].pending.removed && k !in calls[i].removed {
          assert k in calls[i].changed <==> k in calls[i].states;
        }
      }
    }
  }

  /** A run state is misjudged whenever a key whose removal is pending comes back without one:
      the old one outlives the removal. */
  lemma OldStateOutlives<R, S, V>(k: Key, was: R, state: S, now: R, kv: Option<V>)
    ensures var c := Content(map[k := was], map[k := state], kv);
            var p: Batch<R, S>, b: Batch<R, S> := Batch(map[], {k}, map[]), Batch(map[k := now], {}, map[]);
            && k in Misjudged(c, p, b)
            && k in Applied(c, Merged(p, b)).states && k !in Applied(Applied(c, p), b).states
  {
  }

  lemma NothingPending<R, S, V>(c: Content<R, S, V>)
    ensures Applied(c, Nothing()) == c
  {
    assert Applied(c, Nothing()).records == c.records;
    assert Applied(c, Nothing()).states == c.states;
  }

  lemma {:induction false} RunKeepsAll<R, S, V>(run: seq<Sides<R, S, V>>, calls: seq<Batch<R, S>>,
                               kvs: seq<Option<V>>, answers: seq<bool>)
    requires IsRun(run, calls, kvs, answers)
    requires NoneMisjudged(run, calls)
    ensures Overlay(run[|calls|]).states == AllApplied(run[0].stored, calls).states
  {
    if calls == [] {
      assert Overlay(run[0]).states == run[0].stored.states;
    } else {
      var n := |calls| - 1;
      RunKeepsAll(run[..n + 1], calls[..n], kvs[..n], answers[..n]);
      assert SaveStep(run[n], calls[n], kvs[n], run[n + 1], answers[n]);
      MergeKeepsStates(run[n].stored, run[n].pending, calls[n]);
    }
  }

  /** After any calls, however their chunks failed, the store with what is pending holds
      the records every call in full would have stored — and the run states, if a key removed
      before gets one just when it is added again — and the store alone does once a call
      answers true. */
  lemma RunOverlays<R, S, V>(run: seq<Sides<R, S, V>>, calls: seq<Batch<R, S>>,
                             kvs: seq<Option<V>>, answers: seq<bool>)
    requires IsRun(run, calls, kvs, answers)
    ensures var overlaid, full := Overlay(run[|calls|]), AllApplied(run[0].stored, calls);
            overlaid.records == full.records && (BringStates(calls) ==> overlaid.states == full.states)
    ensures calls != [] && answers[|calls| - 1] ==> run[|calls|].stored == Overlay(run[|calls|])
  {
    RunKeepsRecords(run, calls, kvs, answers);
    if BringStates(calls) {
      NoneMisjudgedIfBrought(run, calls, kvs, answers);
      RunKeepsAll(run, calls, kvs, answers);
    }
    if calls != [] && answers[|calls| - 1] {
      var n := |calls| - 1;
      assert SaveStep(run[n], calls[n], kvs[n], run[n + 1], answers[n]);
      NothingPending(run[n + 1].stored);
    }
  }

  /** So a store overlaid with what is pending, and after a call that answers true the store
      alone, has of each record what the last call that named it gave. */
  lemma LastCallHolds<R, S, V>(run: seq<Sides<R, S, V>>, calls: seq<Batch<R, S>>, kvs: seq<Option<V>>, answers: seq<bool>,
                               k: Key)
    requires IsRun(run, calls, kvs, answers)
    ensures HasFate(run[0].stored.records, Overlay(run[|calls|]).records, k, RecordFate(calls, k))
    ensures BringStates(calls) ==> HasFate(run[0].stored.states, Overlay(run[|calls|]).states, k, StateFate(calls, k))
    ensures calls != [] && answers[|calls| - 1] ==>
              HasFate(run[0].stored.records, run[|calls|].stored.records, k, RecordFate(calls, k))
  {
    RunOverlays(run, calls, kvs, answers);
    LastCallDecides(run[0].stored, calls, k);
  }

  // ------------------------------------------------------------- the classes

  /** What the store does with one transaction. */
  datatype Fault = Commit | Refuse | RaiseBefore | RaiseAfterCommit

  datatype Answer = Saved | Unsaved | Raised

  /** A store whose transactions may fail; `faults` decides how each goes. */
  class FaultyStore<R, S, V> {
    var content: Content<R, S, V>
    var faults: seq<Fault>

    constructor (faults: seq<Fault>)
      ensures this.content == Content(map[], map[], IndexStore.None) && this.faults == faults
    {
      this.content := Content(map[], map[], IndexStore.None);
      this.faults := faults;
    }

    method Save(b: Batch<R, S>, kv: Option<V>) returns (answer: Answer)
      modifies this
      ensures var done := Applied(old(content), b).(kv := if kv.Some? then kv else old(content).kv);
              match answer
              case Saved => content == done
              case Unsaved => content == old(content)
              case Raised => content == old(content) || content == done
    {
      var fault := Commit;
      if faults != [] {
        fault, faults := faults[0], faults[1..];
      }
      if fault == Refuse {
        return Unsaved;
      }
      if fault == RaiseBefore {
        return Raised;
      }
      content := Applied(content, b).(kv := if kv.Some? then kv else content.kv);
      return if fault == Commit then Saved else Raised;
    }
  }

  class PendingSave<R, S, V> {
    const SAVE_CHUNK := 500
    var changed: map<Key, R>
    var removed: set<Key>
    var states: map<Key, S>

    function Kept(): Batch<R, S>
      reads this
    {
      Batch(changed, removed, states)
    }

    constructor ()
      ensures Kept() == Nothing()
    {
      changed, removed, states := map[], {}, map[];
    }

    predicate Pending()
      reads this
    {
      changed != map[] || removed != {} || states != map[]
    }

    /** The keys of `all`, a chunk at a time; one empty part without keys. */
    method Parts(all: set<Key>) returns (parts: seq<seq<Key>>)
      ensures parts != [] && KeysIn(parts) == all
      ensures forall n :: 0 <= n < |parts| ==> |parts[n]| <= SAVE_CHUNK
    {
      var left, part: seq<Key> := all, [];
      parts := [];
      while left != {}
        invariant left <= all && |part| <= SAVE_CHUNK
        invariant KeysIn(parts) + SetOf(part) + left == all
        invariant forall n :: 0 <= n < |parts| ==> |parts[n]| <= SAVE_CHUNK
        decreases left
      {
        var k :| k in left;
        if |part| == SAVE_CHUNK {
          LastPart(parts, part);
          parts, part := parts + [part], [];
        }
        assert SetOf(part + [k]) == SetOf(part) + {k} by { AddedKey(part, k); }
        part, left := part + [k], left - {k};
      }
      if part != [] || parts == [] {
        LastPart(parts, part);
        parts := parts + [part];
      }
    }

    method Keep(b: Batch<R, S>, rest: set<Key>)
      modifies this
      ensures Kept() == Part(b, rest, true)
    {
      changed, states := Only(b.changed, rest), Only(b.states, rest);
      removed := b.removed;
    }

    /** What is stored and still to save comes to `target`, the parts before `n` saved. */
    ghost predicate Progress(c: Content<R, S, V>, all: Batch<R, S>, parts: seq<seq<Key>>, n: nat,
                             target: Content<R, S, V>)
      requires n <= |parts|
    {
      Applied(c, Part(all, KeysIn(parts[n..]), true)) == target
    }

    /** Saving part `n` — once, or twice — keeps the progress. */
    lemma PartSaved(c: Content<R, S, V>, all: Batch<R, S>, parts: seq<seq<Key>>, n: nat,
                    target: Content<R, S, V>)
      requires n < |parts| && Progress(c, all, parts, n, target)
      ensures var done := Applied(c, Part(all, SetOf(parts[n]), n == |parts| - 1));
              && Progress(done, all, parts, n, target)
              && (n < |parts| - 1 ==> Progress(done, all, parts, n + 1, target))
              && (n == |parts| - 1 ==> done == target)
    {
      var keys, rest, last := SetOf(parts[n]), KeysIn(parts[n + 1..]), n == |parts| - 1;
      KeysInSplits(parts[n..]);
      assert parts[n..][1..] == parts[n + 1..] && KeysIn(parts[n..]) == keys + rest;
      if last {
        assert rest == {} && keys + rest == keys;
      } else {
        PartAhead(c, all, keys, rest, false);
      }
      PartAhead(c, all, keys, keys + rest, last);
      assert keys + (keys + rest) == keys + rest;
    }

    /** Saves these changes and the pending ones, a chunk at a time. */
    method Save(store: FaultyStore<R, S, V>, b: Batch<R, S>, kv: Option<V>) returns (answer: Answer)
      modifies this, store
      ensures SaveStep(Sides(old(store.content), old(Kept())), b, kv,
                       Sides(store.content, Kept()), answer == Saved)
    {
      ghost var start := store.content;
      var all := b;
      if Pending() {
        all := Merged(Kept(), b);
      }
      assert all == Merged(Kept(), b) by { MergedNothing(b); }
      ghost var target := Applied(start, all);
      var parts := Parts(all.changed.Keys + all.states.Keys);
      WholeBatch(all, KeysIn(parts));
      assert parts[0..] == parts;
      for n := 0 to |parts|
        invariant n < |parts| ==> store.content.kv == start.kv && Progress(store.content, all, parts, n, target)
        invariant n == |parts| ==> store.content == target.(kv := if kv.Some? then kv else start.kv)
      {
        var last := n == |parts| - 1;
        ghost var before := store.content;
        PartSaved(before, all, parts, n, target);
        var outcome := store.Save(Part(all, SetOf(parts[n]), last), if last then kv else IndexStore.None);
        if outcome != Saved {
          Keep(all, KeysIn(parts[n..]));
          return outcome;
        }
      }
      changed, removed, states := map[], {}, map[];
      NothingPending(store.content);
      return Saved;
    }

    lemma MergedNothing(b: Batch<R, S>)
      ensures Merged(Nothing(), b) == b
    {
      assert Merged(Nothing(), b).changed == b.changed;
      assert Merged(Nothing(), b).states == b.states;
    }

    lemma AddedKey(part: seq<Key>, k: Key)
      ensures SetOf(part + [k]) == SetOf(part) + {k}
    {
      forall j | j in SetOf(part) + {k} ensures j in SetOf(part + [k]) {
        if j == k {
          assert (part + [k])[|part|] == k;
        } else {
          var i :| 0 <= i < |part| && part[i] == j;
          assert (part + [k])[i] == j;
        }
      }
    }

    lemma LastPart(parts: seq<seq<Key>>, part: seq<Key>)
      ensures KeysIn(parts + [part]) == KeysIn(parts) + SetOf(part)
    {
      var all := parts + [part];
      forall k | k in KeysIn(parts) + SetOf(part) ensures k in KeysIn(all) {
        if k in KeysIn(parts) {
          var n, i :| 0 <= n < |parts| && 0 <= i < |parts[n]| && parts[n][i] == k;
          assert all[n][i] == k;
        } else {
          var i :| 0 <= i < |part| && part[i] == k;
          assert all[|parts|][i] == k;
        }
      }
    }
  }
}

/**
 The experiment index's persisted tables (`SqliteStore`), and what a follower
 that polls them ends up holding.

 Every save of an app bumps its generation, stamps the rows it writes with it
 and leaves a tombstone per removed key; old tombstones are trimmed, and the
 horizon remembers the newest one trimmed. A follower asks for the changes
 since the generation it holds. The main result, `FollowerIsExact`, says that
 whatever saves, trims and polls happened, a poll leaves the follower with
 exactly the store's records and run states.
 */
module IndexStore {

  type Key = string

  datatype Option<+T> = None | Some(value: T)

  /** A table row: the generation that wrote it, and its content. */
  datatype Row<+T> = Row(seqno: nat, data: T)

  datatype Tombstone = Tombstone(seqno: nat, ts: int)

  /** A record as a reader sees it: its folded part and its run state, if stored. */
  datatype Record<+R, +S> = Record(body: R, state: Option<S>)

  /** One app's tables. */
  datatype Tables<R, S> = Tables(
    gen: nat,
    horizon: nat,
    records: map<Key, Row<R>>,
    states: map<Key, Row<S>>,
    tombstones: map<Key, Tombstone>)

  const TOMBSTONE_TTL_SEC := 600

  function EmptyTables<R, S>(): Tables<R, S> {
    Tables(0, 0, map[], map[], map[])
  }

  /** The record of key `k` with its run state joined in. */
  function Joined<R, S>(t: Tables<R, S>, k: Key): Record<R, S>
    requires k in t.records
  {
    Record(t.records[k].data, if k in t.states then Some(t.states[k].data) else None)
  }

  /** Every persisted record; a run state without a record is not seen. */
  function View<R, S>(t: Tables<R, S>): map<Key, Record<R, S>> {
    map k | k in t.records :: Joined(t, k)
  }

  // ---------------------------------------------------------------- saving

  function Stamped<T>(seqno: nat, rows: map<Key, T>): map<Key, Row<T>> {
    map k | k in rows :: Row(seqno, rows[k])
  }

  /** The tables after upserting records and run states, then forgetting the keys of
      `removed`, each given with the clock's reading as its tombstone is written. */
  function Written<R, S>(t: Tables<R, S>, changed: map<Key, R>, removed: map<Key, int>,
                         states: map<Key, S>): Tables<R, S>
  {
    var seqno := t.gen + 1;
    Tables(
      seqno,
      t.horizon,
      (t.records + Stamped(seqno, changed)) - removed.Keys,
      (t.states + Stamped(seqno, states)) - removed.Keys,
      (t.tombstones + map k | k in removed :: Tombstone(seqno, removed[k])) - changed.Keys)
  }

  function Stale(tombstones: map<Key, Tombstone>, cutoff: int): set<Key> {
    set k | k in tombstones && tombstones[k].ts < cutoff
  }

  function Max(a: int, b: int): int { if a < b then b else a }

  /** The largest generation among the tombstones of `keys`. */
  ghost function NewestSeq(tombstones: map<Key, Tombstone>, keys: set<Key>): nat
    requires keys <= tombstones.Keys
  {
    if keys == {} then 0 else
      var k :| k in keys;
      Max(tombstones[k].seqno, NewestSeq(tombstones, keys - {k}))
  }

  lemma {:induction false} NewestSeqIsMax(tombstones: map<Key, Tombstone>, keys: set<Key>)
    requires keys <= tombstones.Keys
    ensures forall k :: k in keys ==> tombstones[k].seqno <= NewestSeq(tombstones, keys)
    ensures keys != {} ==> exists k :: k in keys && tombstones[k].seqno == NewestSeq(tombstones, keys)
  {
    if keys != {} {
      var k :| k in keys && NewestSeq(tombstones, keys)
        == Max(tombstones[k].seqno, NewestSeq(tombstones, keys - {k}));
      var rest := keys - {k};
      var newest := NewestSeq(tombstones, rest);
      NewestSeqIsMax(tombstones, rest);
      forall j | j in keys ensures tombstones[j].seqno <= Max(tombstones[k].seqno, newest) {
        if j != k {
          assert j in rest;
        }
      }
      if newest > tombstones[k].seqno {
        assert rest != {};
        var j :| j in rest && tombstones[j].seqno == newest;
        assert j in keys && tombstones[j].seqno == Max(tombstones[k].seqno, newest);
      } else {
        assert k in keys && tombstones[k].seqno == Max(tombstones[k].seqno, newest);
      }
    }
  }

  /** The tables with the tombstones older than `cutoff` dropped and the horizon moved past them. */
  ghost function Trimmed<R, S>(t: Tables<R, S>, cutoff: int): Tables<R, S> {
    var stale := Stale(t.tombstones, cutoff);
    t.(tombstones := t.tombstones - stale, horizon := Max(t.horizon, NewestSeq(t.tombstones, stale)))
  }

  /** Just the tombstones not older than `cutoff` stay, and the horizon is the least that is no
      less than before and than every one that went. */
  lemma TrimmedExactly<R, S>(t: Tables<R, S>, cutoff: int)
    ensures var after := Trimmed(t, cutoff);
            && after.gen == t.gen && after.records == t.records && after.states == t.states
            && (forall k :: k in after.tombstones <==> k in t.tombstones && t.tombstones[k].ts >= cutoff)
            && (forall k :: k in after.tombstones ==> after.tombstones[k] == t.tombstones[k])
            && after.horizon >= t.horizon
            && (forall k :: k in t.tombstones && t.tombstones[k].ts < cutoff ==> t.tombstones[k].seqno <= after.horizon)
            && (after.horizon == t.horizon
                || exists k :: k in t.tombstones && t.tombstones[k].ts < cutoff && t.tombstones[k].seqno == after.horizon)
  {
    NewestSeqIsMax(t.tombstones, Stale(t.tombstones, cutoff));
  }

  /** Nothing to save but key-value puts. */
  predicate NoChange<R, S>(changed: map<Key, R>, removed: map<Key, int>, states: map<Key, S>) {
    changed.Keys == {} && removed.Keys == {} && states.Keys == {}
  }

  /** One committed save. */
  ghost function Saved<R, S>(t: Tables<R, S>, changed: map<Key, R>, removed: map<Key, int>,
                             states: map<Key, S>, now: int): Tables<R, S>
  {
    if NoChange(changed, removed, states) then t
    else Trimmed(Written(t, changed, removed, states), now - TOMBSTONE_TTL_SEC)
  }

  // --------------------------------------------------------------- catching up

  datatype Gone = FullLoad | Keys(keys: set<Key>)

  datatype Delta<R, S> = Delta(changed: map<Key, Record<R, S>>, removed: Gone, gen: nat)

  /** What changed since `generation`, or everything once that cannot be told. */
  function Since<R, S>(t: Tables<R, S>, generation: nat): Delta<R, S> {
    if generation < t.horizon || generation > t.gen then Delta(View(t), FullLoad, t.gen)
    else
      var touched := (set k | k in t.records && t.records[k].seqno > generation)
                     + (set k | k in t.states && t.states[k].seqno > generation);
      Delta(map k | k in t.records && k in touched :: Joined(t, k),
            Keys(set k | k in t.tombstones && t.tombstones[k].seqno > generation),
            t.gen)
  }

  /** A follower's records after taking `delta` in. */
  function Patched<R, S>(records: map<Key, Record<R, S>>, delta: Delta<R, S>): map<Key, Record<R, S>> {
    var removed := match delta.removed
      case FullLoad => records.Keys - delta.changed.Keys
      case Keys(keys) => keys;
    (records - removed) + delta.changed
  }

  // ------------------------------------------------------------- the invariant

  /** Whether a follower holding `was` as of generation `g` would be told what became of `k`. */
  ghost predicate Told<R, S>(t: Tables<R, S>, was: map<Key, Record<R, S>>, g: nat, k: Key) {
    if k in t.records then
      || t.records[k].seqno > g
      || (k in t.states && t.states[k].seqno > g)
      || (k in was && was[k] == Joined(t, k))
    else
      k in was ==> k in t.tombstones && t.tombstones[k].seqno > g
  }

  /** `history[g]` is what the tables held at generation `g`, and every generation
      from the horizon on can be caught up from. */
  ghost predicate CanCatchUp<R(!new), S(!new)>(t: Tables<R, S>, history: seq<map<Key, Record<R, S>>>) {
    && |history| == t.gen + 1
    && history[t.gen] == View(t)
    && t.horizon <= t.gen
    && t.tombstones.Keys !! t.records.Keys
    && (forall k :: k in t.tombstones ==> t.tombstones[k].seqno <= t.gen)
    && (forall g, k :: t.horizon <= g <= t.gen ==> Told(t, history[g], g, k))
  }

  lemma EmptyCanCatchUp<R(!new), S(!new)>()
    ensures CanCatchUp(EmptyTables<R, S>(), [map[]])
  {
    assert View(EmptyTables<R, S>()) == map[];
  }

  lemma ToldAfterWrite<R(!new), S(!new)>(t: Tables<R, S>, history: seq<map<Key, Record<R, S>>>,
                           changed: map<Key, R>, removed: map<Key, int>, states: map<Key, S>,
                           g: nat, k: Key)
    requires CanCatchUp(t, history) && t.horizon <= g <= t.gen
    ensures var w := Written(t, changed, removed, states);
            && (Told(w, history[g], g, k) <==> !(k in changed && k in removed && k in history[g]))
            && (k in w.tombstones ==> k !in w.records)
  {
    assert Told(t, history[g], g, k);
  }

  lemma WriteKeepsCatchUp<R(!new), S(!new)>(t: Tables<R, S>, history: seq<map<Key, Record<R, S>>>,
                             changed: map<Key, R>, removed: map<Key, int>, states: map<Key, S>)
    requires CanCatchUp(t, history) && changed.Keys !! removed.Keys
    ensures var w := Written(t, changed, removed, states);
            CanCatchUp(w, history + [View(w)])
  {
    var w := Written(t, changed, removed, states);
    var after := history + [View(w)];
    forall g, k | w.horizon <= g <= w.gen ensures Told(w, after[g], g, k) {
      if g <= t.gen {
        ToldAfterWrite(t, history, changed, removed, states, g, k);
        assert after[g] == history[g];
      }
    }
  }

  lemma TrimKeepsTold<R(!new), S(!new)>(t: Tables<R, S>, cutoff: int, was: map<Key, Record<R, S>>, g: nat, k: Key)
    requires Trimmed(t, cutoff).horizon <= g
    ensures Told(Trimmed(t, cutoff), was, g, k) <==> Told(t, was, g, k)
  {
    NewestSeqIsMax(t.tombstones, Stale(t.tombstones, cutoff));
  }

  lemma TrimKeepsCatchUp<R(!new), S(!new)>(t: Tables<R, S>, history: seq<map<Key, Record<R, S>>>, cutoff: int)
    requires CanCatchUp(t, history)
    ensures CanCatchUp(Trimmed(t, cutoff), history)
  {
    var stale := Stale(t.tombstones, cutoff);
    NewestSeqIsMax(t.tombstones, stale);
    var after := Trimmed(t, cutoff);
    assert View(after) == View(t);
    forall g, k | after.horizon <= g <= after.gen ensures Told(after, history[g], g, k) {
      assert Told(t, history[g], g, k);
      TrimKeepsTold(t, cutoff, history[g], g, k);
    }
  }

  /** A save of disjoint changes and removals never strands a follower. */
  lemma SaveKeepsCatchUp<R(!new), S(!new)>(t: Tables<R, S>, history: seq<map<Key, Record<R, S>>>,
                             changed: map<Key, R>, removed: map<Key, int>,
                             states: map<Key, S>, now: int)
    requires CanCatchUp(t, history) && changed.Keys !! removed.Keys
    ensures var after := Saved(t, changed, removed, states, now);
            CanCatchUp(after, if after.gen == t.gen then history else history + [View(after)])
  {
    if !NoChange(changed, removed, states) {
      var w := Written(t, changed, removed, states);
      WriteKeepsCatchUp(t, history, changed, removed, states);
      TrimKeepsCatchUp(w, history + [View(w)], now - TOMBSTONE_TTL_SEC);
      assert View(Trimmed(w, now - TOMBSTONE_TTL_SEC)) == View(w);
    }
  }

  /** From any generation it ever held — or one of a file since rebuilt — a follower
      reaches exactly the store's records and run states. */
  lemma DeltaIsExact<R(!new), S(!new)>(t: Tables<R, S>, history: seq<map<Key, Record<R, S>>>,
                         g: nat, held: map<Key, Record<R, S>>)
    requires CanCatchUp(t, history)
    requires g <= t.gen ==> held == history[g]
    ensures Patched(held, Since(t, g)) == View(t)
    ensures Since(t, g).gen == t.gen
  {
    var delta := Since(t, g);
    var patched := Patched(held, delta);
    if t.horizon <= g <= t.gen {
      forall k ensures k in patched <==> k in View(t)
               ensures k in patched ==> patched[k] == View(t)[k] {
        assert Told(t, history[g], g, k);
      }
    }
  }

  // -------------------------------------------------------------------- runs

  datatype Event<R, S> =
    | Save(changed: map<Key, R>, removed: map<Key, int>, states: map<Key, S>, now: int)
    | Poll

  /** The store, its past contents, and one follower. */
  datatype Shared<R, S> = Shared(
    tables: Tables<R, S>,
    history: seq<map<Key, Record<R, S>>>,
    held: map<Key, Record<R, S>>,
    at: nat)

  ghost predicate Ok<R, S>(e: Event<R, S>) {
    e.Save? ==> e.changed.Keys !! e.removed.Keys
  }

  ghost function Step<R, S>(s: Shared<R, S>, e: Event<R, S>): Shared<R, S> {
    match e
    case Poll =>
      var delta := Since(s.tables, s.at);
      s.(held := Patched(s.held, delta), at := delta.gen)
    case Save(changed, removed, states, now) =>
      var after := Saved(s.tables, changed, removed, states, now);
      s.(tables := after,
         history := if after.gen == s.tables.gen then s.history else s.history + [View(after)])
  }

  ghost function Run<R, S>(events: seq<Event<R, S>>): Shared<R, S> {
    if events == [] then Shared(EmptyTables(), [map[]], map[], 0)
    else Step(Run(events[..|events| - 1]), events[|events| - 1])
  }

  lemma {:induction false} RunKeepsUp<R(!new), S(!new)>(events: seq<Event<R, S>>)
    requires forall e :: e in events ==> Ok(e)
    ensures var s := Run(events);
            CanCatchUp(s.tables, s.history) && s.at <= s.tables.gen && s.held == s.history[s.at]
  {
    if events == [] {
      EmptyCanCatchUp<R, S>();
    } else {
      var before, e := events[..|events| - 1], events[|events| - 1];
      assert e in events;
      RunKeepsUp(before);
      var s := Run(before);
      match e
      case Poll => DeltaIsExact(s.tables, s.history, s.at, s.held);
      case Save(changed, removed, states, now) =>
        SaveKeepsCatchUp(s.tables, s.history, changed, removed, states, now);
    }
  }

  /** After any saves, trims and polls, one more poll leaves the follower holding
      exactly what the store holds, at the store's generation. */
  lemma FollowerIsExact<R(!new), S(!new)>(events: seq<Event<R, S>>)
    requires forall e :: e in events ==> Ok(e)
    ensures var s := Run(events + [Poll]);
            s.held == View(s.tables) && s.at == s.tables.gen
            && s.tables == Run(events).tables
  {
    RunKeepsUp(events);
    var s := Run(events);
    assert (events + [Poll])[..|events|] == events;
    DeltaIsExact(s.tables, s.history, s.at, s.held);
  }

  // ------------------------------------------------------------ what is stored, key by key

  function StateAt<R, S>(t: Tables<R, S>, k: Key): Option<S> {
    if k in t.states then Some(t.states[k].data) else None
  }

  /** What a save leaves of one key. */
  ghost predicate KeySaved<R, S>(t: Tables<R, S>, after: Tables<R, S>, changed: map<Key, R>, removed: map<Key, int>,
                                 states: map<Key, S>, k: Key) {
    && (k in View(after) <==> k !in removed && (k in changed || k in View(t)))
    && (k in View(after) ==> View(after)[k].body == if k in changed then changed[k] else View(t)[k].body)
    && (k in View(after) ==> View(after)[k].state == if k in states then Some(states[k]) else StateAt(t, k))
    && StateAt(after, k) == if k in removed then None else if k in states then Some(states[k]) else StateAt(t, k)
  }

  /** After a save a removed key is gone, a changed one has the new content, each run state
      saved is stored, and the rest is as before. */
  lemma SavedKeyByKey<R, S>(t: Tables<R, S>, changed: map<Key, R>, removed: map<Key, int>, states: map<Key, S>, now: int, k: Key)
    ensures KeySaved(t, Saved(t, changed, removed, states, now), changed, removed, states, k)
  {
    assert NoChange(changed, removed, states) ==> k !in changed && k !in removed && k !in states by {
      if NoChange(changed, removed, states) { assert k !in changed.Keys && k !in removed.Keys && k !in states.Keys; }
    }
  }

  /** The content given in the last save that changed or removed the key, none if it removed it. */
  function LastBody<R, S>(events: seq<Event<R, S>>, k: Key): Option<R> {
    if events == [] then None
    else
      var e := events[|events| - 1];
      if e.Save? && k in e.removed then None
      else if e.Save? && k in e.changed then Some(e.changed[k])
      else LastBody(events[..|events| - 1], k)
  }

  function LastState<R, S>(events: seq<Event<R, S>>, k: Key): Option<S> {
    if events == [] then None
    else
      var e := events[|events| - 1];
      if e.Save? && k in e.removed then None
      else if e.Save? && k in e.states then Some(e.states[k])
      else LastState(events[..|events| - 1], k)
  }

  /** After any run the store holds of each key what its last save gave. */
  lemma {:induction false} RunHoldsLast<R(!new), S(!new)>(events: seq<Event<R, S>>, k: Key)
    ensures var t := Run(events).tables;
            && (k in View(t) <==> LastBody(events, k).Some?)
            && (k in View(t) ==> View(t)[k] == Record(LastBody(events, k).value, LastState(events, k)))
            && StateAt(t, k) == LastState(events, k)
  {
    if events != [] {
      var before, e := events[..|events| - 1], events[|events| - 1];
      RunHoldsLast(before, k);
      if e.Save? { SavedKeyByKey(Run(before).tables, e.changed, e.removed, e.states, e.now, k); }
    }
  }

  /** So does every follower after a poll. */
  lemma FollowerHoldsLast<R(!new), S(!new)>(events: seq<Event<R, S>>, k: Key)
    requires forall e :: e in events ==> Ok(e)
    ensures var held := Run(events + [Poll]).held;
            && (k in held <==> LastBody(events, k).Some?)
            && (k in held ==> held[k] == Record(LastBody(events, k).value, LastState(events, k)))
  {
    FollowerIsExact(events);
    RunHoldsLast(events, k);
  }

  // ------------------------------------------------------------- only what changed

  predicate Names<R, S>(e: Event<R, S>, k: Key) { e.Save? && (k in e.changed || k in e.states || k in e.removed) }

  /** Nothing stored of the key is newer than generation `g`. */
  ghost predicate NotSince<R, S>(t: Tables<R, S>, g: nat, k: Key) {
    && (k in t.records ==> t.records[k].seqno <= g)
    && (k in t.states ==> t.states[k].seqno <= g)
    && (k in t.tombstones ==> t.tombstones[k].seqno <= g)
  }

  lemma {:induction false} StampsInBounds<R(!new), S(!new)>(events: seq<Event<R, S>>, k: Key)
    ensures NotSince(Run(events).tables, Run(events).tables.gen, k)
  {
    if events != [] { StampsInBounds(events[..|events| - 1], k); }
  }

  lemma {:induction false} UnnamedNotSince<R(!new), S(!new)>(a: seq<Event<R, S>>, b: seq<Event<R, S>>, k: Key)
    requires forall e :: e in b ==> !Names(e, k)
    ensures NotSince(Run(a + b).tables, Run(a).tables.gen, k)
  {
    if b == [] {
      assert a + b == a;
      StampsInBounds(a, k);
    } else {
      var init, e := b[..|b| - 1], b[|b| - 1];
      assert (a + b)[..|a + b| - 1] == a + init;
      assert e in b && !Names(e, k);
      UnnamedNotSince(a, init, k);
    }
  }

  /** A delta that is not a full load names only keys saved or removed since. */
  lemma DeltaIsWhatWasSaved<R(!new), S(!new)>(a: seq<Event<R, S>>, b: seq<Event<R, S>>, k: Key)
    requires var delta := Since(Run(a + b).tables, Run(a).tables.gen);
             delta.removed.Keys? && (k in delta.changed || k in delta.removed.keys)
    ensures exists e :: e in b && Names(e, k)
  {
    if forall e :: e in b ==> !Names(e, k) {
      UnnamedNotSince(a, b, k);
    }
  }

  /** The saves of `events` came between two moments no further apart than tombstones are kept. */
  ghost predicate Within<R(!new), S(!new)>(events: seq<Event<R, S>>, start: int) {
    forall e :: e in events && e.Save? ==>
      e.now <= start + TOMBSTONE_TTL_SEC && forall k :: k in e.removed ==> e.removed[k] >= start
  }

  /** No tombstone after generation `g` is older than `start`, and none of them was trimmed. */
  ghost predicate KeptSince<R, S>(t: Tables<R, S>, g: nat, start: int) {
    t.horizon <= g <= t.gen && forall k :: k in t.tombstones && t.tombstones[k].seqno > g ==> t.tombstones[k].ts >= start
  }

  lemma {:induction false} SinceKept<R(!new), S(!new)>(a: seq<Event<R, S>>, b: seq<Event<R, S>>, start: int)
    requires (forall e :: e in a ==> Ok(e)) && Within(b, start)
    ensures KeptSince(Run(a + b).tables, Run(a).tables.gen, start)
  {
    if b == [] {
      assert a + b == a;
      RunKeepsUp(a);
    } else {
      var init, e := b[..|b| - 1], b[|b| - 1];
      assert (a + b)[..|a + b| - 1] == a + init;
      assert forall x :: x in init ==> x in b;
      SinceKept(a, init, start);
      assert e in b;
      if e.Save? { SaveKeepsSince(Run(a + init).tables, e.changed, e.removed, e.states, e.now, Run(a).tables.gen, start); }
    }
  }

  lemma SaveKeepsSince<R, S>(t: Tables<R, S>, changed: map<Key, R>, removed: map<Key, int>, states: map<Key, S>, now: int,
                             g: nat, start: int)
    requires KeptSince(t, g, start) && now <= start + TOMBSTONE_TTL_SEC && forall k :: k in removed ==> removed[k] >= start
    ensures KeptSince(Saved(t, changed, removed, states, now), g, start)
  {
    var w := Written(t, changed, removed, states);
    NewestSeqIsMax(w.tombstones, Stale(w.tombstones, now - TOMBSTONE_TTL_SEC));
  }

  /** A follower that polled no longer ago than tombstones are kept is never sent everything. */
  lemma RecentFollowerIsPatched<R(!new), S(!new)>(a: seq<Event<R, S>>, b: seq<Event<R, S>>, start: int)
    requires (forall e :: e in a ==> Ok(e)) && Within(b, start)
    ensures Since(Run(a + b).tables, Run(a).tables.gen).removed.Keys?
  {
    SinceKept(a, b, start);
  }

  predicate SameAt<V(==)>(a: map<Key, V>, b: map<Key, V>, k: Key) {
    if k in a then k in b && a[k] == b[k] else k !in b
  }

  lemma SameEverywhere<V>(a: map<Key, V>, b: map<Key, V>)
    requires forall k :: SameAt(a, b, k)
    ensures a == b
  {
    forall k ensures k in a <==> k in b {
      assert SameAt(a, b, k);
    }
    forall k | k in a ensures a[k] == b[k] {
      assert SameAt(a, b, k);
    }
  }

  /** `Told` is exactly what a delta needs to be right about one key. */
  lemma ToldIsExact<R(!new), S(!new)>(t: Tables<R, S>, held: map<Key, Record<R, S>>, g: nat, k: Key)
    requires t.horizon <= g <= t.gen
    requires k in t.tombstones ==> k !in t.records
    ensures Told(t, held, g, k) <==>
            SameAt(Patched(held, Since(t, g)), View(t), k)
  {
  }

  /** Why `Ok` asks for disjoint changes and removals: a key in both loses its record
      and its tombstone. A follower with no full load due stays exact after a save
      if and only if it held none of the keys the save both changed and removed. */
  lemma OverlapStrandsFollower<R(!new), S(!new)>(t: Tables<R, S>, history: seq<map<Key, Record<R, S>>>,
                                  changed: map<Key, R>, removed: map<Key, int>,
                                  states: map<Key, S>, now: int, g: nat)
    requires CanCatchUp(t, history) && changed != map[] && g <= t.gen
    requires Saved(t, changed, removed, states, now).horizon <= g
    ensures var after := Saved(t, changed, removed, states, now);
            Patched(history[g], Since(after, g)) == View(after)
            <==> changed.Keys * removed.Keys * history[g].Keys == {}
  {
    var w := Written(t, changed, removed, states);
    var after := Saved(t, changed, removed, states, now);
    var held := history[g];
    var patched, view := Patched(held, Since(after, g)), View(after);
    var lost := changed.Keys * removed.Keys * held.Keys;
    forall k
      ensures k in lost <==> !SameAt(patched, view, k)
    {
      ToldAfterWrite(t, history, changed, removed, states, g, k);
      TrimKeepsTold(w, now - TOMBSTONE_TTL_SEC, held, g, k);
      ToldIsExact(after, held, g, k);
    }
    if lost == {} {
      forall k ensures SameAt(patched, view, k) {
        assert k !in lost;
      }
      SameEverywhere(patched, view);
    } else {
      var k :| k in lost;
      assert !SameAt(patched, view, k);
    }
  }

  // --------------------------------------------------------------- the store

  /** One app's tables as the store updates them, save by save. */
  class SqliteStore<R(!new), S(!new)> {
    var gen: nat
    var horizon: nat
    var records: map<Key, Row<R>>
    var states: map<Key, Row<S>>
    var tombstones: map<Key, Tombstone>
    /** The key-value table beside them. */
    var values: map<string, string>

    function Contents(): Tables<R, S>
      reads this`gen, this`horizon, this`records, this`states, this`tombstones
    {
      Tables(gen, horizon, records, states, tombstones)
    }

    constructor ()
      ensures Contents() == EmptyTables() && values == map[]
    {
      gen, horizon, records, states, tombstones, values := 0, 0, map[], map[], map[], map[];
    }

    /** One transaction: the records, the run states, the tombstones and the trim, if there are
        changes to save, then the key-value puts; or nothing of it. */
    method Save(changed: map<Key, R>, removed: map<Key, int>, newStates: map<Key, S>,
                puts: map<string, string>, now: int, available: bool)
      returns (saved: bool)
      modifies this
      ensures saved == (available || (NoChange(changed, removed, newStates) && puts.Keys == {}))
      ensures Contents() == if saved then Saved(old(Contents()), changed, removed, newStates, now)
                            else old(Contents())
      ensures values == if saved then old(values) + puts else old(values)
    {
      var changes := !NoChange(changed, removed, newStates);
      if !changes && puts.Keys == {} {
        return true;
      }
      if !available {
        return false;
      }
      if changes {
        Write(changed, removed, newStates);
        TrimTombstones(now);
      }
      values := values + puts;
      return true;
    }

    /** The rows of a save, at a new generation. */
    method Write(changed: map<Key, R>, removed: map<Key, int>, newStates: map<Key, S>)
      requires !NoChange(changed, removed, newStates)
      modifies this`gen, this`records, this`states, this`tombstones
      ensures Contents() == Written(old(Contents()), changed, removed, newStates)
    {
      gen := gen + 1;
      records := records + Stamped(gen, changed);
      states := states + Stamped(gen, newStates);
      Forget(gen, removed);
      tombstones := tombstones - changed.Keys;
    }

    method Forget(seqno: nat, removed: map<Key, int>)
      modifies this`records, this`states, this`tombstones
      ensures records == old(records) - removed.Keys
      ensures states == old(states) - removed.Keys
      ensures tombstones == old(tombstones) + map k | k in removed :: Tombstone(seqno, removed[k])
    {
      records := records - removed.Keys;
      states := states - removed.Keys;
      tombstones := tombstones + map k | k in removed :: Tombstone(seqno, removed[k]);
    }

    method TrimTombstones(now: int)
      modifies this`tombstones, this`horizon
      ensures Contents() == Trimmed(old(Contents()), now - TOMBSTONE_TTL_SEC)
    {
      var stale := Stale(tombstones, now - TOMBSTONE_TTL_SEC);
      NewestSeqIsMax(tombstones, stale);
      if stale == {} {
        assert tombstones - stale == tombstones;
        return;
      }
      var newest := 0;
      var left := stale;
      while left != {}
        invariant left <= stale
        invariant forall k :: k in stale - left ==> tombstones[k].seqno <= newest
        invariant left < stale ==> exists k :: k in stale && tombstones[k].seqno == newest
        decreases left
      {
        var k :| k in left;
        if tombstones[k].seqno > newest || left == stale {
          newest := tombstones[k].seqno;
        }
        left := left - {k};
      }
      tombstones := tombstones - stale;
      horizon := if horizon < newest then newest else horizon;
    }

    method LoadSince(generation: nat) returns (delta: Delta<R, S>)
      ensures delta == Since(Contents(), generation)
    {
      delta := Since(Contents(), generation);
    }
  }

  /** A follower's copy of the records, patched in place at every refresh. */
  class Follower<R(!new), S(!new)> {
    var records: map<Key, Record<R, S>>
    var generation: nat

    constructor ()
      ensures records == map[] && generation == 0
    {
      records, generation := map[], 0;
    }

    /** Takes the store's changes in; the keys that changed and the held ones that went. */
    method ApplyDelta(store: SqliteStore<R, S>, ghost history: seq<map<Key, Record<R, S>>>)
      returns (changed: set<Key>, removed: set<Key>)
      requires CanCatchUp(store.Contents(), history)
      requires generation <= store.gen ==> records == history[generation]
      modifies this
      ensures records == View(store.Contents()) && generation == store.gen
      ensures removed == old(records).Keys - records.Keys
      ensures changed <= records.Keys
      ensures forall k :: k in records && k !in changed ==> k in old(records) && records[k] == old(records)[k]
    {
      ghost var before := records;
      var delta := store.LoadSince(generation);
      DeltaIsExact(store.Contents(), history, generation, before);
      removed := match delta.removed
        case FullLoad => records.Keys - delta.changed.Keys
        case Keys(keys) => set k | k in keys && k in records;
      records := records - removed;
      records := records + delta.changed;
      assert records == Patched(before, delta);
      generation := delta.gen;
      changed := delta.changed.Keys;
      assert generation == store.gen;
      forall k ensures k in removed <==> k in before && k !in records {
        if k in removed && delta.removed.Keys? {
          assert k in store.tombstones;
        }
      }
    }
  }
}

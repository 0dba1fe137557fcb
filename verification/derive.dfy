/**
 Re-deriving an index file's derived rows after an upgrade (`index_derive`): chunk by
 chunk in key order, a marker saying how far, several derivers and saves in between.

 A deriver reads the marker, then a chunk past it, and writes the rows in one
 transaction later, if the marker has not moved, leaving out the records saved again
 since it read them. `DerivedWhenDone`: in every interleaving, once the marker is gone
 each run's row is the one its record gives and no other key has a row.

 A row's status comes from the run state, whose own saves do not count as saves of the
 record: `RightUnlessLastStale` has it right too if and only if the last step to touch the
 row did not write it from a run state changed since it was read, `StatusesWhenDone` if no
 run state is saved alone while a deriver holds its record, and `StaleStatus` is a run
 where one is and a stale status stays.
 */
module Derive {
  type Key = int

  datatype Option<+T> = None | Some(value: T)

  /** A stored record: the save it is of, what it holds if it is a run, its run state. */
  datatype Rec = Rec(seqno: nat, content: Option<string>, state: string)

  /** A derived row. */
  datatype Row = Row(lean: string, status: string)

  /** How far the re-derive is: gone, at the start, or past a key. */
  datatype Marker = Gone | Start | Past(key: Key)

  predicate Beyond(m: Marker, k: Key) { m.Start? || (m.Past? && k > m.key) }

  datatype Tables = Tables(gen: nat, records: map<Key, Rec>, rows: map<Key, Row>, marker: Marker)

  function RowOf(r: Rec): Row
    requires r.content.Some?
  {
    Row(r.content.value, r.state)
  }

  /** What a deriver knows: nothing, the marker it read, the chunk it read past it, or that
      there was nothing past it. */
  datatype Deriver = Idle | Took(after: Marker) | Holding(after: Marker, chunk: map<Key, Rec>) | Ending(after: Marker)

  datatype System = System(t: Tables, derivers: map<nat, Deriver>)

  // ----------------------------------------------------------------- transactions

  /** A save: records of a new generation with their rows, others removed with theirs. */
  function Saved(t: Tables, changed: map<Key, (Option<string>, string)>, removed: set<Key>): Tables {
    var gen := t.gen + 1;
    var now := (t.records + map k | k in changed :: Rec(gen, changed[k].0, changed[k].1)) - removed;
    Tables(gen, now, Rewritten(t.rows, now, changed.Keys - removed) - removed, t.marker)
  }

  /** The rows with those of `keys` as their records give them: none for one that is no run. */
  function Rewritten(rows: map<Key, Row>, records: map<Key, Rec>, keys: set<Key>): map<Key, Row> {
    (rows - keys) + map k | k in keys && k in records && records[k].content.Some? :: RowOf(records[k])
  }

  /** Run states saved alone: the statuses of rows there are follow. */
  function StatesSaved(t: Tables, states: map<Key, string>): Tables {
    t.(gen := t.gen + 1,
       records := map k | k in t.records :: if k in states then t.records[k].(state := states[k]) else t.records[k],
       rows := map k | k in t.rows :: if k in states then t.rows[k].(status := states[k]) else t.rows[k])
  }

  /** The first records past a marker. */
  ghost predicate IsChunk(records: map<Key, Rec>, after: Marker, keys: set<Key>) {
    && (forall k :: k in keys ==> k in records && Beyond(after, k))
    && (forall k, c :: k in records && Beyond(after, k) && c in keys && k <= c ==> k in keys)
    && (keys == {} ==> forall k :: k in records ==> !Beyond(after, k))
  }

  /** Of a chunk read, the records not saved again since. */
  function Unsaved(t: Tables, chunk: map<Key, Rec>): map<Key, Rec> {
    map k | k in chunk && k in t.records && t.records[k].seqno == chunk[k].seqno :: chunk[k]
  }

  /** The records read of a chunk. */
  function Those(records: map<Key, Rec>, keys: set<Key>): map<Key, Rec> {
    map k | k in keys && k in records :: records[k]
  }

  ghost predicate IsMax(keys: set<Key>, last: Key) { last in keys && forall k :: k in keys ==> k <= last }

  /** The chunk's rows written and the marker moved on, unless another deriver moved it. */
  function Written(t: Tables, after: Marker, chunk: map<Key, Rec>, last: Key): Tables {
    if t.marker != after then t
    else
      var still := Unsaved(t, chunk);
      t.(rows := Rewritten(t.rows, still, still.Keys), marker := Past(last))
  }

  datatype Step =
    | Save(changed: map<Key, (Option<string>, string)>, removed: set<Key>)
    | SaveStates(states: map<Key, string>)
    | ReadMarker(i: nat)
    | ReadChunk(i: nat, keys: set<Key>)
    | Write(i: nat, last: Key)
    | Finish(i: nat)

  /** Whether the step can be taken. */
  ghost predicate Enabled(s: System, step: Step) {
    match step
    case Save(_, _) => true
    case SaveStates(_) => true
    case ReadMarker(i) => true
    case ReadChunk(i, keys) => i in s.derivers && s.derivers[i].Took? && IsChunk(s.t.records, s.derivers[i].after, keys)
    case Write(i, last) => i in s.derivers && s.derivers[i].Holding? && IsMax(s.derivers[i].chunk.Keys, last)
    case Finish(i) => i in s.derivers && s.derivers[i].Ending?
  }

  function Do(s: System, step: Step): System {
    match step
    case Save(changed, removed) => s.(t := Saved(s.t, changed, removed))
    case SaveStates(states) => s.(t := StatesSaved(s.t, states))
    case ReadMarker(i) => s.(derivers := s.derivers[i := if s.t.marker.Gone? then Idle else Took(s.t.marker)])
    case ReadChunk(i, keys) =>
      if i !in s.derivers || !s.derivers[i].Took? then s
      else
        var after := s.derivers[i].after;
        var chunk := Those(s.t.records, keys);
        s.(derivers := s.derivers[i := if chunk == map[] then Ending(after) else Holding(after, chunk)])
    case Write(i, last) =>
      if i !in s.derivers || !s.derivers[i].Holding? then s
      else
        System(Written(s.t, s.derivers[i].after, s.derivers[i].chunk, last), s.derivers[i := Idle])
    case Finish(i) => System(s.t.(marker := Gone), s.derivers[i := Idle])
  }

  /** An upgrade's file: rows of records only, all still to derive. */
  ghost predicate IsUpgraded(t: Tables) {
    && t.marker == Start && t.rows.Keys <= t.records.Keys
    && forall k :: k in t.records ==> t.records[k].seqno <= t.gen
  }

  ghost predicate CanRun(t: Tables, steps: seq<Step>) {
    forall i :: 0 <= i < |steps| ==> Enabled(Run(t, steps[..i]), steps[i])
  }

  function Run(t: Tables, steps: seq<Step>): System {
    if steps == [] then System(t, map[]) else Do(Run(t, steps[..|steps| - 1]), steps[|steps| - 1])
  }

  /** A record's content and run state as the saves of a run leave them, none once removed. */
  function LastSaved(t: Tables, steps: seq<Step>, k: Key): Option<(Option<string>, string)> {
    if steps == [] then if k in t.records then Some((t.records[k].content, t.records[k].state)) else None
    else
      var before := LastSaved(t, steps[..|steps| - 1], k);
      match steps[|steps| - 1]
      case Save(changed, removed) => if k in removed then None else if k in changed then Some(changed[k]) else before
      case SaveStates(states) => if k in states && before.Some? then Some((before.value.0, states[k])) else before
      case _ => before
  }

  /** Through any run, derivers or not, the records are what was last saved of each. */
  lemma {:induction false} RecordsAreLastSaved(t: Tables, steps: seq<Step>, k: Key)
    ensures var now, last := Run(t, steps).t.records, LastSaved(t, steps, k);
            && (k in now <==> last.Some?)
            && (k in now ==> now[k].content == last.value.0 && now[k].state == last.value.1)
  {
    hide Unsaved, Rewritten;
    if steps != [] { RecordsAreLastSaved(t, steps[..|steps| - 1], k); }
  }

  // -------------------------------------------------------------------- invariants

  /** The key's row is what its record gives: a run's, else none. */
  ghost predicate RowRight(t: Tables, k: Key, full: bool) {
    if k in t.records && t.records[k].content.Some?
    then k in t.rows && t.rows[k].lean == t.records[k].content.value && (full ==> t.rows[k].status == t.records[k].state)
    else k !in t.rows
  }

  /** A key of a chunk not saved since it was read, or with its row right. */
  ghost predicate ChunkRight(t: Tables, chunk: map<Key, Rec>, k: Key, full: bool) {
    || (k in chunk && k in t.records && t.records[k].seqno == chunk[k].seqno)
    || RowRight(t, k, full)
  }

  /** A key read is as it was while its save is the same. */
  ghost predicate ReadRight(t: Tables, chunk: map<Key, Rec>, k: Key, full: bool)
    requires k in chunk
  {
    chunk[k].seqno <= t.gen && (k in t.records && t.records[k].seqno == chunk[k].seqno ==>
      t.records[k].content == chunk[k].content && (full ==> t.records[k].state == chunk[k].state))
  }

  /** The marker is not before where a deriver is. */
  predicate NotBefore(m: Marker, after: Marker) {
    match m
    case Gone => true
    case Start => after.Start?
    case Past(k) => after.Start? || (after.Past? && after.key <= k)
  }

  ghost predicate DeriverRight(t: Tables, d: Deriver, full: bool) {
    match d
    case Idle => true
    case Took(after) => !after.Gone? && NotBefore(t.marker, after)
    case Holding(after, chunk) =>
      && !after.Gone? && NotBefore(t.marker, after)
      && (forall k :: k in chunk ==> Beyond(after, k) && ReadRight(t, chunk, k, full))
      && (forall k, c :: Beyond(after, k) && c in chunk && k <= c ==> ChunkRight(t, chunk, k, full))
    case Ending(after) => !after.Gone? && NotBefore(t.marker, after) && forall k :: Beyond(after, k) ==> RowRight(t, k, full)
  }

  ghost predicate TablesRight(t: Tables, full: bool) {
    && (forall k :: k in t.records ==> t.records[k].seqno <= t.gen)
    && (forall k :: k in t.rows ==> k in t.records)
    && (forall k :: !Beyond(t.marker, k) ==> RowRight(t, k, full))
  }

  ghost predicate Inv(s: System, full: bool) {
    TablesRight(s.t, full) && forall i :: i in s.derivers ==> DeriverRight(s.t, s.derivers[i], full)
  }

  /** Nothing a step does to the tables makes a right row wrong or goes back. */
  ghost predicate Onward(t: Tables, after: Tables, full: bool, moved: set<Key>) {
    && t.gen <= after.gen && NotBefore(after.marker, t.marker)
    && (forall k :: RowRight(t, k, full) ==> RowRight(after, k, full))
    && (forall k :: KeyOnward(t, after, k, full, moved))
  }

  /** A key keeps its save and content, or is of a later save with its row right, or gone. */
  ghost predicate KeyOnward(t: Tables, after: Tables, k: Key, full: bool, moved: set<Key>) {
    || (k in t.records && k in after.records && after.records[k].seqno == t.records[k].seqno
        && after.records[k].content == t.records[k].content && (full && k !in moved ==> after.records[k].state == t.records[k].state))
    || (k in after.records && after.records[k].seqno > t.gen && RowRight(after, k, full))
    || (k !in after.records && RowRight(after, k, full))
  }

  lemma NotBeforeOn(a: Marker, b: Marker, c: Marker)
    requires NotBefore(b, a) && NotBefore(c, b) && !a.Gone? && (b.Gone? ==> c.Gone?)
    ensures NotBefore(c, a)
  {
  }

  /** What a deriver knows stays right as the tables go on. */
  lemma DeriverStays(t: Tables, after: Tables, d: Deriver, full: bool, moved: set<Key>)
    requires DeriverRight(t, d, full) && Onward(t, after, full, moved) && (full && d.Holding? ==> d.chunk.Keys !! moved) && (t.marker.Gone? ==> after.marker.Gone?)
    requires forall k :: k in t.records ==> t.records[k].seqno <= t.gen
    ensures DeriverRight(after, d, full)
  {
    if !d.Idle? {
      NotBeforeOn(d.after, t.marker, after.marker);
    }
    if d.Holding? {
      forall k | k in d.chunk ensures ReadRight(after, d.chunk, k, full) {
        assert ReadRight(t, d.chunk, k, full) && KeyOnward(t, after, k, full, moved);
      }
      forall k, c | Beyond(d.after, k) && c in d.chunk && k <= c ensures ChunkRight(after, d.chunk, k, full) {
        assert ChunkRight(t, d.chunk, k, full) && KeyOnward(t, after, k, full, moved);
      }
    }
  }

  // ------------------------------------------------------------------------- steps

  lemma SaveOnward(t: Tables, changed: map<Key, (Option<string>, string)>, removed: set<Key>, full: bool)
    requires TablesRight(t, full)
    ensures Onward(t, Saved(t, changed, removed), full, {}) && TablesRight(Saved(t, changed, removed), full)
  {
    var after := Saved(t, changed, removed);
    forall k ensures RowRight(t, k, full) ==> RowRight(after, k, full)
             ensures KeyOnward(t, after, k, full, {})
             ensures k in changed.Keys - removed ==> RowRight(after, k, full)
    {
    }
  }

  lemma StatesOnward(t: Tables, states: map<Key, string>, full: bool)
    requires TablesRight(t, full)
    ensures Onward(t, StatesSaved(t, states), full, states.Keys) && TablesRight(StatesSaved(t, states), full)
  {
    var after := StatesSaved(t, states);
    forall k ensures RowRight(t, k, full) ==> RowRight(after, k, full)
             ensures KeyOnward(t, after, k, full, states.Keys)
    {
    }
  }

  /** A chunk written has every row of it right. */
  lemma WriteOnward(t: Tables, after: Marker, chunk: map<Key, Rec>, last: Key, full: bool)
    requires TablesRight(t, full) && DeriverRight(t, Holding(after, chunk), full) && IsMax(chunk.Keys, last)
    ensures Onward(t, Written(t, after, chunk, last), full, {}) && TablesRight(Written(t, after, chunk, last), full)
  {
    if t.marker == after {
      var now, still := Written(t, after, chunk, last), Unsaved(t, chunk);
      forall k ensures RowRight(t, k, full) || k in still ==> RowRight(now, k, full)
               ensures KeyOnward(t, now, k, full, {})
      {
        if k in still {
          assert ReadRight(t, chunk, k, full);
        }
      }
      forall k | !Beyond(now.marker, k) ensures RowRight(now, k, full) {
        if Beyond(after, k) {
          assert ChunkRight(t, chunk, k, full);
        }
      }
    }
  }

  /** A chunk just read. */
  lemma ChunkJustRead(t: Tables, after: Marker, keys: set<Key>, full: bool)
    requires TablesRight(t, full) && DeriverRight(t, Took(after), full) && IsChunk(t.records, after, keys)
    ensures var chunk := Those(t.records, keys);
            DeriverRight(t, if chunk == map[] then Ending(after) else Holding(after, chunk), full)
  {
    var chunk := Those(t.records, keys);
    assert forall k :: k in chunk <==> k in keys;
    if chunk == map[] {
      assert forall k :: k in keys ==> k in chunk;
      assert keys == {};
      forall k | Beyond(after, k) ensures RowRight(t, k, full) {
        assert k !in t.records;
      }
    } else {
      forall k, c | Beyond(after, k) && c in chunk && k <= c ensures ChunkRight(t, chunk, k, full) {
        assert k in t.records ==> k in keys;
      }
    }
  }

  /** A deriver with nothing past its marker finishes with every row right. */
  lemma FinishOnward(t: Tables, after: Marker, full: bool)
    requires TablesRight(t, full) && DeriverRight(t, Ending(after), full)
    ensures Onward(t, t.(marker := Gone), full, {}) && TablesRight(t.(marker := Gone), full)
  {
    var now := t.(marker := Gone);
    forall k ensures RowRight(now, k, full) {
      assert Beyond(after, k) || !Beyond(t.marker, k);
    }
  }

  /** No run state a deriver holds is saved alone. */
  ghost predicate StatesUnread(s: System, step: Step) {
    step.SaveStates? ==> forall i :: i in s.derivers && s.derivers[i].Holding? ==> s.derivers[i].chunk.Keys !! step.states.Keys
  }

  /** A step keeps tables and derivers right. */
  lemma StepKeeps(s: System, step: Step, full: bool)
    requires Inv(s, full) && Enabled(s, step) && (full ==> StatesUnread(s, step))
    ensures Inv(Do(s, step), full)
  {
    var after := Do(s, step);
    match step {
      case Save(changed, removed) => SaveOnward(s.t, changed, removed, full);
      case SaveStates(states) => StatesOnward(s.t, states, full);
      case ReadMarker(i) =>
      case ReadChunk(i, keys) =>
        assert DeriverRight(s.t, s.derivers[i], full);
        ChunkJustRead(s.t, s.derivers[i].after, keys, full);
      case Write(i, last) =>
        assert DeriverRight(s.t, s.derivers[i], full);
        WriteOnward(s.t, s.derivers[i].after, s.derivers[i].chunk, last, full);
      case Finish(i) =>
        assert DeriverRight(s.t, s.derivers[i], full);
        FinishOnward(s.t, s.derivers[i].after, full);
    }
    if !step.ReadMarker? && !step.ReadChunk? {
      forall i | i in after.derivers ensures DeriverRight(after.t, after.derivers[i], full) {
        if i in s.derivers && after.derivers[i] == s.derivers[i] {
          DeriverStays(s.t, after.t, s.derivers[i], full, if step.SaveStates? then step.states.Keys else {});
        }
      }
    }
  }

  ghost predicate AllStatesUnread(t: Tables, steps: seq<Step>) {
    forall i :: 0 <= i < |steps| ==> StatesUnread(Run(t, steps[..i]), steps[i])
  }

  lemma {:induction false} RunKeeps(t: Tables, steps: seq<Step>, full: bool)
    requires IsUpgraded(t) && CanRun(t, steps) && (full ==> AllStatesUnread(t, steps))
    ensures Inv(Run(t, steps), full)
  {
    if steps != [] {
      var init := steps[..|steps| - 1];
      forall i | 0 <= i < |init|
        ensures Enabled(Run(t, init[..i]), init[i]) && (full ==> StatesUnread(Run(t, init[..i]), init[i]))
      {
        assert init[..i] == steps[..i];
        assert Enabled(Run(t, steps[..i]), steps[i]);
        assert full ==> StatesUnread(Run(t, steps[..i]), steps[i]);
      }
      RunKeeps(t, init, full);
      assert Enabled(Run(t, steps[..|steps| - 1]), steps[|steps| - 1]);
      StepKeeps(Run(t, init), steps[|steps| - 1], full);
    }
  }

  /** Whoever derived, saved and removed in between: once the marker is gone every run's row
      is what its record gives, its status aside, and nothing else has a row. */
  lemma DerivedWhenDone(t: Tables, steps: seq<Step>, k: Key)
    requires IsUpgraded(t) && CanRun(t, steps) && Run(t, steps).t.marker.Gone?
    ensures RowRight(Run(t, steps).t, k, false)
  {
    RunKeeps(t, steps, false);
    assert !Beyond(Gone, k);
  }

  /** The status is right too if no run state was saved alone while a deriver held it. */
  lemma StatusesWhenDone(t: Tables, steps: seq<Step>, k: Key)
    requires IsUpgraded(t) && CanRun(t, steps) && Run(t, steps).t.marker.Gone? && AllStatesUnread(t, steps)
    ensures RowRight(Run(t, steps).t, k, true)
  {
    RunKeeps(t, steps, true);
    assert !Beyond(Gone, k);
  }

  // --------------------------------------------------- when exactly a status is right

  /** The key's row, if any, has the status its record gives. */
  predicate StatusRight(t: Tables, k: Key) {
    k in t.rows && k in t.records ==> t.rows[k].status == t.records[k].state
  }

  /** The step writes the key's row, or its run state, or takes them away. */
  predicate Touches(s: System, step: Step, k: Key) {
    match step
    case Save(changed, removed) => k in changed || k in removed
    case SaveStates(states) => k in states
    case Write(i, _) => Writes(s, i, k)
    case _ => false
  }

  /** Deriver `i`'s write would write the key's row: the marker has not moved and the record
      was not saved since it was read. */
  predicate Writes(s: System, i: nat, k: Key) {
    && i in s.derivers && s.derivers[i].Holding? && s.t.marker == s.derivers[i].after
    && k in Unsaved(s.t, s.derivers[i].chunk)
  }

  /** The step writes a run's row from a run state that is not the record's any more. */
  predicate WritesStale(s: System, step: Step, k: Key) {
    && step.Write? && Writes(s, step.i, k)
    && s.derivers[step.i].chunk[k].content.Some? && s.derivers[step.i].chunk[k].state != s.t.records[k].state
  }

  /** The last step to touch the key wrote a stale status; or nothing did, and it was stale. */
  predicate LastStale(t: Tables, steps: seq<Step>, k: Key) {
    if steps == [] then !StatusRight(t, k)
    else
      var init, step := steps[..|steps| - 1], steps[|steps| - 1];
      if Touches(Run(t, init), step, k) then WritesStale(Run(t, init), step, k) else LastStale(t, init, k)
  }

  /** What one step does to a status: one that touches it leaves it right unless it writes a
      stale one, any other leaves it as it was. */
  lemma StatusAfter(s: System, step: Step, k: Key)
    requires Enabled(s, step)
    ensures StatusRight(Do(s, step).t, k) <==>
              if Touches(s, step, k) then !WritesStale(s, step, k) else StatusRight(s.t, k)
  {
  }

  lemma {:induction false} StatusFollows(t: Tables, steps: seq<Step>, k: Key)
    requires CanRun(t, steps)
    ensures StatusRight(Run(t, steps).t, k) <==> !LastStale(t, steps, k)
  {
    if steps != [] {
      var init := steps[..|steps| - 1];
      forall i | 0 <= i < |init| ensures Enabled(Run(t, init[..i]), init[i]) {
        assert init[..i] == steps[..i];
        assert Enabled(Run(t, steps[..i]), steps[i]);
      }
      StatusFollows(t, init, k);
      assert Enabled(Run(t, steps[..|steps| - 1]), steps[|steps| - 1]);
      StatusAfter(Run(t, init), steps[|steps| - 1], k);
    }
  }

  /** Once the marker is gone a run's row is right, its status too, if and only if the last
      step to touch it did not write it from a run state changed since it was read. */
  lemma RightUnlessLastStale(t: Tables, steps: seq<Step>, k: Key)
    requires IsUpgraded(t) && CanRun(t, steps) && Run(t, steps).t.marker.Gone?
    ensures RowRight(Run(t, steps).t, k, true) <==> !LastStale(t, steps, k)
  {
    DerivedWhenDone(t, steps, k);
    StatusFollows(t, steps, k);
    RunKeeps(t, steps, false);
  }

  /** A run state saved alone while a deriver holds its record: the deriver writes the status
      it read, and there it stays. */
  lemma StaleStatus(t: Tables, k: Key, r: Rec, state: string)
    requires t == Tables(1, map[k := r], map[], Start) && r.seqno == 1 && r.content.Some? && state != r.state
    ensures var steps := [ReadMarker(0), ReadChunk(0, {k}), SaveStates(map[k := state]), Write(0, k),
                          ReadMarker(0), ReadChunk(0, {}), Finish(0)];
            var end := Run(t, steps).t;
            IsUpgraded(t) && CanRun(t, steps) && end.marker.Gone?
            && k in end.records && k in end.rows && end.records[k].state == state && end.rows[k].status == r.state
  {
    var steps := [ReadMarker(0), ReadChunk(0, {k}), SaveStates(map[k := state]), Write(0, k),
                  ReadMarker(0), ReadChunk(0, {}), Finish(0)];
    var written := Tables(2, map[k := r.(state := state)], map[k := RowOf(r)], Past(k));
    var systems := [
      System(t, map[]), System(t, map[0 := Took(Start)]), System(t, map[0 := Holding(Start, map[k := r])]),
      System(Tables(2, map[k := r.(state := state)], map[], Start), map[0 := Holding(Start, map[k := r])]),
      System(written, map[0 := Idle]), System(written, map[0 := Took(Past(k))]),
      System(written, map[0 := Ending(Past(k))]), System(written.(marker := Gone), map[0 := Idle])];
    StatusRead(t, k, r, state);
    StatusWritten(k, r, state);
    NothingLeft(written, k);
    assert IsUpgraded(t);
    hide Do, Enabled, Run, IsUpgraded;
    forall i | 0 <= i < |steps| ensures Goes(systems, steps, i) {
      assert i == 0 || i == 1 || i == 2 || i == 3 || i == 4 || i == 5 || i == 6;
    }
    Traced(t, steps, systems, |steps|);
    forall i | 0 <= i < |steps| ensures Enabled(Run(t, steps[..i]), steps[i]) {
      Traced(t, steps, systems, i);
      assert Goes(systems, steps, i);
    }
    assert steps[..|steps|] == steps;
  }

  /** Step `i` can be taken and leads to the next of the systems. */
  ghost predicate Goes(systems: seq<System>, steps: seq<Step>, i: nat)
    requires i < |steps| < |systems|
  {
    Enabled(systems[i], steps[i]) && Do(systems[i], steps[i]) == systems[i + 1]
  }

  /** A run through these systems. */
  lemma {:induction false} Traced(t: Tables, steps: seq<Step>, systems: seq<System>, n: nat)
    requires n <= |steps| && |systems| == |steps| + 1 && systems[0] == System(t, map[])
    requires forall i :: 0 <= i < |steps| ==> Goes(systems, steps, i)
    ensures Run(t, steps[..n]) == systems[n]
  {
    if n > 0 {
      Traced(t, steps, systems, n - 1);
      assert steps[..n][..n - 1] == steps[..n - 1] && Goes(systems, steps, n - 1);
    }
  }

  lemma StatusRead(t: Tables, k: Key, r: Rec, state: string)
    requires t == Tables(1, map[k := r], map[], Start)
    ensures var s := System(t, map[0 := Took(Start)]);
            var held := System(t, map[0 := Holding(Start, map[k := r])]);
            && Enabled(System(t, map[]), ReadMarker(0)) && Do(System(t, map[]), ReadMarker(0)) == s
            && Enabled(s, ReadChunk(0, {k})) && Do(s, ReadChunk(0, {k})) == held
            && Enabled(held, SaveStates(map[k := state])) && Do(held, SaveStates(map[k := state])) == held.(t := Tables(2, map[k := r.(state := state)], map[], Start))
  {
    assert Those(t.records, {k}) == map[k := r] && k in Those(t.records, {k});
    var later := StatesSaved(t, map[k := state]);
    assert later.records == map[k := r.(state := state)] && later.rows == map[];
  }

  lemma StatusWritten(k: Key, r: Rec, state: string)
    requires r.content.Some?
    ensures var s := System(Tables(2, map[k := r.(state := state)], map[], Start), map[0 := Holding(Start, map[k := r])]);
            var written := Tables(2, map[k := r.(state := state)], map[k := RowOf(r)], Past(k));
            Enabled(s, Write(0, k)) && Do(s, Write(0, k)) == System(written, map[0 := Idle])
  {
    var t := Tables(2, map[k := r.(state := state)], map[], Start);
    assert Unsaved(t, map[k := r]) == map[k := r];
    assert Rewritten(map[], map[k := r], {k}) == map[k := RowOf(r)];
  }

  lemma NothingLeft(t: Tables, k: Key)
    requires t.marker == Past(k) && t.records.Keys == {k}
    ensures var took := System(t, map[0 := Took(Past(k))]);
            var ending := System(t, map[0 := Ending(Past(k))]);
            && Enabled(System(t, map[0 := Idle]), ReadMarker(0)) && Do(System(t, map[0 := Idle]), ReadMarker(0)) == took
            && Enabled(took, ReadChunk(0, {})) && Do(took, ReadChunk(0, {})) == ending
            && Enabled(ending, Finish(0)) && Do(ending, Finish(0)) == System(t.(marker := Gone), map[0 := Idle])
  {
    assert Those(t.records, {}) == map[];
  }

  // ------------------------------------------------------------------ one deriver

  const CHUNK := 500

  /** The keys of the records past a marker. */
  function Left(t: Tables): set<Key> { set k | k in t.records && Beyond(t.marker, k) }

  class DerivedTables {
    var gen: nat
    var records: map<Key, Rec>
    var rows: map<Key, Row>
    var marker: Marker

    function Contents(): Tables
      reads this
    {
      Tables(gen, records, rows, marker)
    }

    constructor (t: Tables)
      ensures Contents() == t
    {
      gen, records, rows, marker := t.gen, t.records, t.rows, t.marker;
    }

    /** The first records past a marker, in key order. */
    method DecodedChunk(after: Marker, size: nat) returns (chunk: map<Key, Rec>)
      requires size > 0
      ensures IsChunk(records, after, chunk.Keys) && chunk == Those(records, chunk.Keys)
      ensures var left := |set k | k in records && Beyond(after, k)|;
              |chunk| == if left < size then left else size
    {
      var past := set k | k in records && Beyond(after, k);
      var taken: set<Key> := {};
      while |taken| < size && past != {}
        invariant Splits(records, after, past, taken) && |taken| <= size
        decreases past
      {
        ghost var least := LeastOf(past);
        var k :| k in past && forall c :: c in past ==> k <= c;
        TakeNext(records, after, past, taken, k);
        past := past - {k};
        taken := taken + {k};
      }
      chunk := Those(records, taken);
      TakenIsChunk(records, after, past, taken);
      TakenIsRest(records, after, past, taken);
      assert |chunk| == |chunk.Keys|;
    }

    /** Writes a chunk's rows, unless another deriver moved the marker. */
    method WriteChunk(after: Marker, chunk: map<Key, Rec>)
      requires chunk != map[]
      modifies this`rows, this`marker
      ensures exists last :: IsMax(chunk.Keys, last) && Contents() == Written(old(Contents()), after, chunk, last)
    {
      var last := GreatestOf(chunk.Keys);
      if marker == after {
        var still := Unsaved(Contents(), chunk);
        rows := Rewritten(rows, still, still.Keys);
        marker := Past(last);
      }
    }

    /** Re-derives the next chunk; how many records it took, 0 once nothing is left. */
    method DeriveChunk() returns (taken: nat)
      requires TablesRight(Contents(), true)
      modifies this`rows, this`marker
      ensures TablesRight(Contents(), true)
      ensures taken == 0 ==> marker == Gone
      ensures taken > 0 ==> Left(Contents()) < Left(old(Contents()))
      ensures taken == if |Left(old(Contents()))| < CHUNK then |Left(old(Contents()))| else CHUNK
    {
      if marker == Gone {
        assert Left(Contents()) == {};
        return 0;
      }
      var after := marker;
      var chunk := DecodedChunk(after, CHUNK);
      ghost var was := Contents();
      ChunkJustRead(was, after, chunk.Keys, true);
      if chunk == map[] {
        FinishOnward(was, after, true);
        marker := Gone;
        return 0;
      }
      WriteChunk(after, chunk);
      ghost var last :| IsMax(chunk.Keys, last) && Contents() == Written(was, after, chunk, last);
      WriteOnward(was, after, chunk, last, true);
      LessLeft(was, Contents(), after, last);
      taken := |chunk|;
      assert last in chunk.Keys;
    }

    /** Re-derives everything, nobody else about: every row as its record gives it. */
    method Derive()
      requires TablesRight(Contents(), true)
      modifies this`rows, this`marker
      ensures marker == Gone && forall k :: RowRight(Contents(), k, true)
    {
      var taken := DeriveChunk();
      while taken != 0
        invariant TablesRight(Contents(), true) && (taken == 0 ==> marker == Gone)
        decreases Left(Contents()), taken
      {
        taken := DeriveChunk();
      }
      forall k ensures RowRight(Contents(), k, true) {
        assert !Beyond(marker, k);
      }
    }
  }

  /** The keys past a marker: those taken, and after them those left. */
  ghost predicate Splits(records: map<Key, Rec>, after: Marker, past: set<Key>, taken: set<Key>) {
    && (forall k :: k in taken ==> k in records && Beyond(after, k))
    && (forall k :: k in past ==> k in records && Beyond(after, k))
    && (forall k :: k in records && Beyond(after, k) ==> k in past || k in taken)
    && (forall k, c :: k in past && c in taken ==> c < k)
  }

  lemma TakeNext(records: map<Key, Rec>, after: Marker, past: set<Key>, taken: set<Key>, k: Key)
    requires Splits(records, after, past, taken) && k in past && forall c :: c in past ==> k <= c
    ensures Splits(records, after, past - {k}, taken + {k})
  {
  }

  lemma TakenIsChunk(records: map<Key, Rec>, after: Marker, past: set<Key>, taken: set<Key>)
    requires Splits(records, after, past, taken) && (taken != {} || past == {})
    ensures Those(records, taken).Keys == taken && IsChunk(records, after, taken)
    ensures Those(records, Those(records, taken).Keys) == Those(records, taken)
  {
    assert forall k :: k in Those(records, taken) <==> k in taken;
  }

  lemma TakenIsRest(records: map<Key, Rec>, after: Marker, past: set<Key>, taken: set<Key>)
    requires Splits(records, after, past, taken)
    ensures |set k | k in records && Beyond(after, k)| == |taken| + |past|
  {
    var all := set k | k in records && Beyond(after, k);
    forall k ensures k in all <==> k in taken + past {
    }
    assert all == taken + past && taken !! past;
  }

  lemma LessLeft(t: Tables, after: Tables, m: Marker, last: Key)
    requires t.marker == m && after.marker == Past(last) && after.records == t.records
    requires last in t.records && Beyond(m, last)
    ensures Left(after) < Left(t)
  {
    assert last in Left(t) && last !in Left(after);
  }

  lemma LeastOf(keys: set<Key>) returns (m: Key)
    requires keys != {}
    ensures m in keys && forall k :: k in keys ==> m <= k
    decreases |keys|
  {
    SomeKey(keys);
    var any :| any in keys;
    m := any;
    if c :| c in keys && c < any {
      assert c in keys - {any};
      m := LeastOf(keys - {any});
      assert forall u :: u in keys ==> u == any || u in keys - {any};
    }
  }

  lemma SomeKey(keys: set<Key>)
    ensures keys == {} || exists k :: k in keys
  {
    if forall k :: k !in keys {
      assert keys == {};
    }
  }

  method GreatestOf(keys: set<Key>) returns (m: Key)
    requires keys != {}
    ensures IsMax(keys, m)
  {
    SomeKey(keys);
    m :| m in keys;
    var left := keys;
    while left != {}
      invariant left <= keys && m in keys && forall k :: k in keys && k !in left ==> k <= m
      decreases left
    {
      SomeKey(left);
      var k :| k in left;
      left := left - {k};
      if k > m {
        m := k;
      }
    }
  }
}

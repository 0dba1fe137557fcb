/**
 The journal mark a journaled index persists with its records, and why it never
 runs ahead of them.

 Writers change records and announce the changes in a journal. A reader delivers
 the announcements to the index as hints, in journal order, and says how far it
 got. A refresh takes hints (a limited batch at a time), lists and reads the
 records they name, saves what it read a chunk at a time, and, with the last chunk
 of a load, the journal position every hint taken so far reaches. Hints arrive
 during refreshes; listings, refreshes and saves fail at any point; the process
 may crash and resume from the mark, or start cold with a full listing, which a
 remote store runs behind serving.

 A record's content (or its absence) is a version number that grows with every
 write. Marks are the journal positions they stand for.
 */
module JournalMarks {
  import IndexStore

  type Key = IndexStore.Key
  type Option<+T> = IndexStore.Option<T>
  type Versions = map<Key, nat>

  const HINTS_PER_REFRESH := 2000

  function Ver(m: Versions, k: Key): nat { if k in m then m[k] else 0 }

  datatype Entry = Entry(key: Key, ver: nat)

  function KeysOf(entries: seq<Entry>): set<Key> {
    set i | 0 <= i < |entries| :: entries[i].key
  }

  /** A full listing running behind serving: `start` is what there was when it began,
      `todo` what it has yet to list, `ready` what it listed and no refresh took,
      `seen` the records a refresh listed itself since, `refused` those it gave up on. */
  datatype Relisting = Relisting(ghost start: Versions, todo: set<Key>, ready: Versions,
                                 seen: set<Key>, refused: set<Key>)

  /** What a sweep remembers of the journal. `listedFull`: this refresh listed everything. */
  datatype Hints = Hints(
    hinted: set<Key>, hintMark: Option<nat>, markTaken: Option<nat>, markBefore: Option<nat>,
    taken: set<Key>, lastFull: bool, listedFull: bool,
    resumePending: bool, awaitingReplay: bool, relisting: Option<Relisting>)

  function FreshHints(resumed: bool): Hints {
    Hints({}, IndexStore.None, IndexStore.None, IndexStore.None, {}, false, false, resumed, resumed, IndexStore.None)
  }

  /** The position the records stand at, or none while they might not. */
  function PersistableMark(h: Hints): Option<nat> {
    if !h.lastFull || h.awaitingReplay || h.relisting.Some? then IndexStore.None else h.markTaken
  }

  /** Whether `chosen` is a batch `TakenHints` may take. */
  predicate IsBatch(h: Hints, chosen: set<Key>) {
    chosen <= h.hinted &&
    if |h.hinted| > HINTS_PER_REFRESH then |chosen| == HINTS_PER_REFRESH else chosen == h.hinted
  }

  /** The mark moves only with the last of the hints. */
  function TakenHints(h: Hints, chosen: set<Key>): Hints {
    h.(hinted := h.hinted - chosen,
       markTaken := if |h.hinted| > HINTS_PER_REFRESH then h.markTaken else h.hintMark,
       taken := h.taken + chosen)
  }

  function AppliedHints(h: Hints): Hints {
    h.(taken := {}, markBefore := h.markTaken, listedFull := false)
  }

  function FailedHints(h: Hints): Hints {
    h.(hinted := h.hinted + h.taken, taken := {}, markTaken := h.markBefore,
       lastFull := h.lastFull && !h.listedFull, listedFull := false)
  }

  /** The sweep's fields and the methods that move them. */
  class Sweep {
    var hinted: set<Key>
    var hintMark: Option<nat>
    var markTaken: Option<nat>
    var markBefore: Option<nat>
    var taken: set<Key>
    var lastFull: bool
    var listedFull: bool
    var resumePending: bool
    var awaitingReplay: bool
    var relisting: Option<Relisting>

    function State(): Hints
      reads this
    {
      Hints(hinted, hintMark, markTaken, markBefore, taken, lastFull, listedFull,
            resumePending, awaitingReplay, relisting)
    }

    constructor ()
      ensures State() == FreshHints(false)
    {
      hinted, taken := {}, {};
      hintMark, markTaken, markBefore := IndexStore.None, IndexStore.None, IndexStore.None;
      lastFull, listedFull, resumePending, awaitingReplay := false, false, false, false;
      relisting := IndexStore.None;
    }

    method Hint(k: Key)
      modifies this`hinted
      ensures hinted == old(hinted) + {k}
    {
      hinted := hinted + {k};
    }

    method JournalAt(position: nat)
      modifies this`hintMark, this`awaitingReplay
      ensures State() == old(State()).(hintMark := IndexStore.Some(position), awaitingReplay := false)
    {
      hintMark := IndexStore.Some(position);
      awaitingReplay := false;
    }

    method Resume()
      modifies this`resumePending, this`awaitingReplay
      ensures State() == old(State()).(resumePending := true, awaitingReplay := true)
    {
      resumePending, awaitingReplay := true, true;
    }

    /** Takes hints, at most `HINTS_PER_REFRESH` of them. */
    method TakeHints() returns (chosen: set<Key>)
      modifies this`hinted, this`markTaken, this`taken
      ensures IsBatch(old(State()), chosen)
      ensures State() == TakenHints(old(State()), chosen)
    {
      if |hinted| > HINTS_PER_REFRESH {
        chosen := {};
        ghost var all := hinted;
        while |chosen| < HINTS_PER_REFRESH
          invariant |chosen| <= HINTS_PER_REFRESH
          invariant chosen !! hinted && chosen + hinted == all && |all| == |chosen| + |hinted|
          modifies this`hinted
          decreases HINTS_PER_REFRESH - |chosen|
        {
          var k :| k in hinted;
          chosen, hinted := chosen + {k}, hinted - {k};
        }
        assert hinted == all - chosen;
      } else {
        chosen, hinted := hinted, {};
        markTaken := hintMark;
      }
      taken := taken + chosen;
    }

    method Applied()
      modifies this`taken, this`markBefore, this`listedFull
      ensures State() == AppliedHints(old(State()))
    {
      taken, markBefore, listedFull := {}, markTaken, false;
    }

    method Failed()
      modifies this`taken, this`hinted, this`markTaken, this`lastFull, this`listedFull
      ensures State() == FailedHints(old(State()))
    {
      hinted, taken := hinted + taken, {};
      markTaken := markBefore;
      if listedFull {
        lastFull, listedFull := false, false;
      }
    }
  }

  // ------------------------------------------------------------ the whole system

  /** `world`: the newest content; `journal`: the announcements, of which this process
      was given those from `from` up to `at`; `mem`: the index's records in memory;
      `store` and `mark`: what is persisted; `pend`: what a save left behind; `flight`:
      the records a refresh under way listed and has not read, with the version listed.

      Ghost: `left` is what failed refreshes and refused listings gave back and no
      listing read again; `putFrom` is the `from` of the process that put the mark;
      `clean` says that no mark was put while something was left. */
  datatype System = System(
    behind: bool,
    world: Versions, journal: seq<Entry>, from: nat, at: nat,
    hints: Hints, mem: Versions, store: Versions, pend: Versions, mark: Option<nat>,
    refreshing: bool, flight: Versions,
    left: set<Key>, putFrom: nat, clean: bool)

  /** What the index has, saved or still to save. */
  function Have(s: System): Versions { s.store + s.pend }

  datatype Action =
    | Write(key: Key)
    | Announce(key: Key)
    | Deliver(n: nat)
    | ExtraHints(keys: set<Key>)
    | JournalAt
    | RequestFull
    | ListChunk(keys: set<Key>)
    | RefuseChunk(keys: set<Key>)
    | Begin(chosen: set<Key>, live: set<Key>)
    | TakeRelisted(keys: set<Key>)
    | Read(found: Versions, applied: set<Key>, saved: set<Key>, kept: set<Key>, put: bool)
    | Applied
    | Failed(relistingToo: bool)
    | Crash(resume: bool, position: nat)

  function Listed(world: Versions, keys: set<Key>): Versions {
    map k | k in keys :: Ver(world, k)
  }

  function Restrict(m: Versions, keys: set<Key>): Versions {
    map k | k in m && k in keys :: m[k]
  }

  /** A refresh begins with a full listing: everything is listed at once. */
  function BegunFully(s: System, h: Hints, chosen: set<Key>): System {
    var flight := Listed(s.world, s.world.Keys + chosen);
    s.(refreshing := true, flight := flight, left := s.left - flight.Keys,
       hints := h.(resumePending := false, lastFull := true, listedFull := true))
  }

  /** A refresh begins by listing the hinted records and some live ones, a full listing
      behind serving starting beside it when `relist`. */
  function BegunListing(s: System, h: Hints, keys: set<Key>, relist: bool): System {
    var relisting := if h.relisting.Some? then
        IndexStore.Some(h.relisting.value.(seen := h.relisting.value.seen + keys))
      else if relist then IndexStore.Some(Relisting(s.world, s.world.Keys, map[], keys, {}))
      else IndexStore.None;
    s.(refreshing := true, flight := Listed(s.world, keys), left := s.left - keys,
       hints := h.(taken := h.taken + keys, relisting := relisting,
                   lastFull := h.lastFull || h.resumePending, resumePending := false))
  }

  /** A refresh takes hints and lists: everything when a full listing is due. */
  function Begun(s: System, chosen: set<Key>, live: set<Key>): System {
    var h := TakenHints(s.hints, chosen);
    var full := !h.lastFull && !h.resumePending;
    if full && !s.behind then BegunFully(s, h, chosen)
    else BegunListing(s, h, chosen + live, full)
  }

  /** A refresh takes what a listing behind serving listed so far. */
  function TookRelisted(s: System, keys: set<Key>): System
    requires s.hints.relisting.Some?
  {
    var r := s.hints.relisting.value;
    var taken := Restrict(r.ready, keys - r.seen);
    var ready := r.ready - keys;
    var done := r.todo == {} && ready == map[];
    s.(flight := s.flight + taken,
       left := (s.left + r.refused) - taken.Keys,
       hints := s.hints.(
         hinted := s.hints.hinted + r.refused,
         taken := s.hints.taken + taken.Keys,
         lastFull := s.hints.lastFull || done,
         relisting := if done then IndexStore.None
                      else IndexStore.Some(r.(ready := ready, refused := {}))))
  }

  /** A chunk is read, applied and saved: `saved` of the pending and changed records
      committed, `kept` stayed pending (both, when an answer was lost). */
  function DoneReading(s: System, found: Versions, applied: set<Key>, saved: set<Key>,
                       kept: set<Key>, put: bool): System
  {
    var dirty := map k | k in found && found[k] != Ver(s.mem, k) :: found[k];
    var unsaved := s.pend + dirty;
    s.(mem := s.mem + Restrict(found, applied),
       store := s.store + Restrict(unsaved, saved),
       pend := Restrict(unsaved, kept),
       flight := s.flight - found.Keys,
       mark := if put then PersistableMark(s.hints) else s.mark,
       putFrom := if put then s.from else s.putFrom,
       clean := s.clean && (put ==> s.left == {}))
  }

  predicate CanRead(s: System, found: Versions, saved: set<Key>, kept: set<Key>, put: bool) {
    && s.refreshing && found.Keys <= s.flight.Keys
    && (forall k :: k in found ==> s.flight[k] <= found[k] <= Ver(s.world, k))
    && s.pend.Keys + found.Keys <= saved + kept
    // The mark rides with the last chunk of a load, once all before it committed.
    && (put ==> found.Keys == s.flight.Keys && s.pend.Keys + found.Keys <= saved
                && PersistableMark(s.hints).Some?)
  }

  function ChunkListed(s: System, keys: set<Key>): System
    requires s.hints.relisting.Some?
  {
    var r := s.hints.relisting.value;
    s.(hints := s.hints.(relisting := IndexStore.Some(
      r.(todo := r.todo - keys, ready := r.ready + Listed(s.world, keys)))))
  }

  function ChunkRefused(s: System, keys: set<Key>): System
    requires s.hints.relisting.Some?
  {
    var r := s.hints.relisting.value;
    s.(hints := s.hints.(relisting := IndexStore.Some(
      r.(todo := r.todo - keys, refused := r.refused + keys))))
  }

  function Ended(s: System): System { s.(refreshing := false, hints := AppliedHints(s.hints)) }

  function GaveUp(s: System, relistingToo: bool): System {
    s.(refreshing := false, flight := map[], left := s.left + s.hints.taken,
       hints := FailedHints(s.hints).(relisting := if relistingToo then IndexStore.None else s.hints.relisting))
  }

  function Restarted(s: System, resume: bool, p: nat): System {
    s.(from := p, at := p, hints := FreshHints(resume), mem := s.store, pend := map[],
       refreshing := false, flight := map[], left := {})
  }

  /** What happens outside the index: writes, announcements, hints, the journal's position. */
  function DoOutside(s: System, a: Action): System
    requires a.Write? || a.Announce? || a.Deliver? || a.ExtraHints? || a.JournalAt? || a.RequestFull?
  {
    match a
    case Write(k) => s.(world := s.world[k := Ver(s.world, k) + 1])
    case Announce(k) => s.(journal := s.journal + [Entry(k, Ver(s.world, k))])
    case Deliver(n) =>
      if s.at + n > |s.journal| then s else
      s.(at := s.at + n, hints := s.hints.(hinted := s.hints.hinted + KeysOf(s.journal[s.at..s.at + n])))
    case ExtraHints(keys) => s.(hints := s.hints.(hinted := s.hints.hinted + keys))
    case JournalAt => s.(hints := s.hints.(hintMark := IndexStore.Some(s.at), awaitingReplay := false))
    case RequestFull => s.(hints := s.hints.(lastFull := false, resumePending := false))
  }

  /** One step; an action that cannot happen changes nothing. */
  function Do(s: System, a: Action): System {
    match a
    case ListChunk(keys) =>
      if s.hints.relisting.Some? && keys <= s.hints.relisting.value.todo then ChunkListed(s, keys) else s
    case RefuseChunk(keys) =>
      if s.hints.relisting.Some? && keys <= s.hints.relisting.value.todo then ChunkRefused(s, keys) else s
    case Begin(chosen, live) =>
      if !s.refreshing && IsBatch(s.hints, chosen) then Begun(s, chosen, live) else s
    case TakeRelisted(keys) =>
      if s.refreshing && s.hints.relisting.Some? && keys <= s.hints.relisting.value.ready.Keys
      then TookRelisted(s, keys) else s
    case Read(found, applied, saved, kept, put) =>
      if CanRead(s, found, saved, kept, put) then DoneReading(s, found, applied, saved, kept, put) else s
    case Applied => if s.refreshing && s.flight == map[] then Ended(s) else s
    case Failed(relistingToo) => if s.refreshing then GaveUp(s, relistingToo) else s
    case Crash(resume, position) =>
      if resume && s.mark.Some? then Restarted(s, true, s.mark.value)
      else if !resume && position <= |s.journal| then Restarted(s, false, position)
      else s
    case _ => DoOutside(s, a)
  }

  function Start(behind: bool): System {
    System(behind, map[], [], 0, 0, FreshHints(false), map[], map[], map[], IndexStore.None,
           false, map[], {}, 0, true)
  }

  function Run(behind: bool, actions: seq<Action>): System {
    if actions == [] then Start(behind)
    else Do(Run(behind, actions[..|actions| - 1]), actions[|actions| - 1])
  }

  // --------------------------------------------------------------- the invariant

  /** Version `v` of `k` is saved, pending, or listed and about to be read. */
  predicate Got(s: System, k: Key, v: nat) {
    Ver(Have(s), k) >= v || (k in s.flight && s.flight[k] >= v)
  }

  predicate UpTo(m: Option<nat>, n: nat) { m.Some? ==> m.value <= n }

  /** Nothing is newer than the world, and a listing is never older than what the index has. */
  ghost predicate Bounded(s: System) {
    && s.from <= s.at <= |s.journal|
    && UpTo(s.mark, |s.journal|)
    && (forall i :: 0 <= i < |s.journal| ==> s.journal[i].ver <= Ver(s.world, s.journal[i].key))
    && (forall k :: Ver(s.mem, k) <= Ver(Have(s), k) <= Ver(s.world, k))
    && (forall k :: k in s.pend ==> Ver(s.store, k) <= s.pend[k])
    && (forall k :: k in s.flight ==> Ver(Have(s), k) <= s.flight[k] <= Ver(s.world, k))
    && (!s.refreshing ==> s.flight == map[] && s.hints.taken == {} && !s.hints.listedFull)
    && (s.refreshing ==> !s.hints.resumePending)
    && (s.hints.listedFull ==> !s.behind && s.hints.relisting.None?)
    && (!s.behind ==> s.hints.relisting.None?)
    && (!s.hints.listedFull ==> s.flight.Keys <= s.hints.taken)
    && s.left <= s.hints.hinted
  }

  /** Announcement `i` is listed for good. */
  predicate GotEntry(s: System, i: nat) {
    i < |s.journal| ==> Got(s, s.journal[i].key, s.journal[i].ver)
  }

  predicate HadEntry(s: System, i: nat) {
    i < |s.journal| ==> Ver(Have(s), s.journal[i].key) >= s.journal[i].ver
  }

  predicate StoredEntry(s: System, i: nat) {
    i < |s.journal| ==> Ver(s.store, s.journal[i].key) >= s.journal[i].ver
  }

  /** Every announcement delivered to this process is listed or waits as a hint — and
      listed for good up to the marks. */
  ghost predicate HintsKept(s: System) {
    var h := s.hints;
    && UpTo(h.hintMark, s.at) && UpTo(h.markTaken, s.at) && UpTo(h.markBefore, s.at)
    && (forall i :: s.from <= i < s.at && i < |s.journal| && s.journal[i].key !in h.hinted ==>
          GotEntry(s, i) && (s.journal[i].key in h.taken || HadEntry(s, i)))
    && (h.markTaken.Some? ==> forall i :: s.from <= i < h.markTaken.value ==> GotEntry(s, i))
    && (h.markBefore.Some? ==> forall i :: s.from <= i < h.markBefore.value ==> HadEntry(s, i))
    && (!s.refreshing ==> h.markTaken == h.markBefore)
  }

  /** The persisted mark vouches for what its process was given. */
  ghost predicate MarkKept(s: System) {
    s.mark.Some? ==> forall i :: s.putFrom <= i < s.mark.value ==> StoredEntry(s, i)
  }

  /** A listing behind serving accounts for everything there was when it began. */
  ghost predicate RelistingKept(s: System) {
    s.hints.relisting.Some? ==>
      var r := s.hints.relisting.value;
      && (forall k :: Ver(r.start, k) <= Ver(s.world, k))
      && (forall i :: 0 <= i < s.from && i < |s.journal| ==> s.journal[i].ver <= Ver(r.start, s.journal[i].key))
      && (forall k :: k in r.ready && k !in r.seen ==>
            Ver(r.start, k) <= r.ready[k] && Ver(Have(s), k) <= r.ready[k] <= Ver(s.world, k))
      && (forall k :: k in s.flight && k !in r.seen ==> k !in r.ready && k !in r.todo)
      && r.todo !! r.ready.Keys
      && (forall k :: k in r.start ==>
            || ((k in r.todo || k in r.ready) && k !in r.seen)
            || k in r.refused || k in s.left || Got(s, k, r.start[k]))
  }

  /** What was announced before this process began is listed too, once a full listing or a
      resume says so. */
  ghost predicate BaseKept(s: System) {
    s.clean ==>
      && (s.mark.Some? ==> forall i: nat :: i < s.mark.value ==> StoredEntry(s, i))
      && (s.hints.lastFull || s.hints.resumePending ==> forall i: nat ::
            i < s.from && i < |s.journal| && s.journal[i].key !in s.left ==> GotEntry(s, i))
  }

  ghost predicate Inv(s: System) {
    Bounded(s) && HintsKept(s) && MarkKept(s) && RelistingKept(s) && BaseKept(s)
  }

  // ------------------------------------------------------------------- the steps

  // Reading a chunk.

  lemma ReadHave(s: System, found: Versions, applied: set<Key>, saved: set<Key>, kept: set<Key>, put: bool, k: Key)
    requires Bounded(s) && CanRead(s, found, saved, kept, put)
    ensures Ver(Have(DoneReading(s, found, applied, saved, kept, put)), k)
            == if k in found then found[k] else Ver(Have(s), k)
  {
    assert Ver(s.mem, k) <= Ver(Have(s), k);
  }

  lemma ReadStore(s: System, found: Versions, applied: set<Key>, saved: set<Key>, kept: set<Key>, put: bool, k: Key)
    requires Bounded(s) && CanRead(s, found, saved, kept, put)
    ensures var after := DoneReading(s, found, applied, saved, kept, put);
            && Ver(s.store, k) <= Ver(after.store, k)
            && (k in after.pend ==> Ver(after.store, k) <= after.pend[k])
  {
    assert Ver(s.mem, k) <= Ver(Have(s), k);
  }

  /** What reading a chunk leaves the index with. */
  lemma HaveAfterRead(s: System, found: Versions, applied: set<Key>, saved: set<Key>, kept: set<Key>, put: bool, k: Key)
    requires Bounded(s) && CanRead(s, found, saved, kept, put)
    ensures var after := DoneReading(s, found, applied, saved, kept, put);
            && Ver(Have(after), k) == (if k in found then found[k] else Ver(Have(s), k))
            && Ver(s.store, k) <= Ver(after.store, k)
            && (put ==> Ver(after.store, k) == Ver(Have(after), k))
            && (k in after.pend ==> Ver(after.store, k) <= after.pend[k])
  {
    ReadHave(s, found, applied, saved, kept, put, k);
    ReadStore(s, found, applied, saved, kept, put, k);
  }

  lemma ReadBoundedAt(s: System, found: Versions, applied: set<Key>, saved: set<Key>, kept: set<Key>, put: bool, k: Key)
    requires Bounded(s) && CanRead(s, found, saved, kept, put)
    ensures var after := DoneReading(s, found, applied, saved, kept, put);
            && Ver(after.mem, k) <= Ver(Have(after), k) <= Ver(after.world, k)
            && (k in after.pend ==> Ver(after.store, k) <= after.pend[k])
            && (k in after.flight ==> Ver(Have(after), k) <= after.flight[k] <= Ver(after.world, k))
  {
    HaveAfterRead(s, found, applied, saved, kept, put, k);
  }

  lemma ReadBounded(s: System, found: Versions, applied: set<Key>, saved: set<Key>, kept: set<Key>, put: bool)
    requires Inv(s) && CanRead(s, found, saved, kept, put)
    ensures Bounded(DoneReading(s, found, applied, saved, kept, put))
  {
    var after := DoneReading(s, found, applied, saved, kept, put);
    forall k
      ensures Ver(after.mem, k) <= Ver(Have(after), k) <= Ver(after.world, k)
      ensures k in after.pend ==> Ver(after.store, k) <= after.pend[k]
      ensures k in after.flight ==> Ver(Have(after), k) <= after.flight[k] <= Ver(after.world, k)
    {
      ReadBoundedAt(s, found, applied, saved, kept, put, k);
    }
    hide RelistingKept, BaseKept, MarkKept, Have, Ver, Restrict;
  }

  lemma ReadEntries(s: System, found: Versions, applied: set<Key>, saved: set<Key>, kept: set<Key>, put: bool)
    requires Inv(s) && CanRead(s, found, saved, kept, put)
    ensures var after := DoneReading(s, found, applied, saved, kept, put);
            HintsKept(after) && MarkKept(after) && BaseKept(after)
  {
    var after := DoneReading(s, found, applied, saved, kept, put);
    forall i: nat
      ensures GotEntry(s, i) ==> GotEntry(after, i)
      ensures HadEntry(s, i) ==> HadEntry(after, i)
      ensures StoredEntry(s, i) ==> StoredEntry(after, i)
      ensures GotEntry(s, i) && put ==> StoredEntry(after, i)
    {
      if i < |s.journal| {
        HaveAfterRead(s, found, applied, saved, kept, put, s.journal[i].key);
      }
    }
  }

  lemma ReadRelisting(s: System, found: Versions, applied: set<Key>, saved: set<Key>, kept: set<Key>, put: bool)
    requires Inv(s) && CanRead(s, found, saved, kept, put)
    ensures RelistingKept(DoneReading(s, found, applied, saved, kept, put))
  {
    if s.hints.relisting.Some? {
      var after := DoneReading(s, found, applied, saved, kept, put);
      var r := s.hints.relisting.value;
      forall k
        ensures k in r.start ==> Got(s, k, r.start[k]) ==> Got(after, k, r.start[k])
        ensures k in r.ready && k !in r.seen ==> Ver(Have(after), k) == Ver(Have(s), k)
      {
        HaveAfterRead(s, found, applied, saved, kept, put, k);
      }
    }
  }

  // Beginning a refresh.

  /** What taking a batch does to the hints, cardinalities aside. */
  ghost predicate TookBatch(before: Hints, h: Hints, chosen: set<Key>) {
    && chosen <= before.hinted
    && h == before.(hinted := before.hinted - chosen, markTaken := h.markTaken, taken := before.taken + chosen)
    && (h.markTaken == before.markTaken || (h.markTaken == before.hintMark && h.hinted == {}))
  }

  lemma BatchTaken(before: Hints, chosen: set<Key>)
    requires IsBatch(before, chosen)
    ensures TookBatch(before, TakenHints(before, chosen), chosen)
  {
  }

  lemma BeginFullyKeeps(s: System, h: Hints, chosen: set<Key>)
    requires Inv(s) && !s.refreshing && TookBatch(s.hints, h, chosen) && !s.behind
    ensures var after := BegunFully(s, h, chosen);
            Bounded(after) && MarkKept(after) && RelistingKept(after) && BaseKept(after)
  {
    var after := BegunFully(s, h, chosen);
    assert Have(after) == Have(s);
    assert forall i :: StoredEntry(s, i) == StoredEntry(after, i);
    assert forall i :: GotEntry(after, i);
  }

  lemma BeginListingBounded(s: System, h: Hints, chosen: set<Key>, live: set<Key>, relist: bool)
    requires Inv(s) && !s.refreshing && TookBatch(s.hints, h, chosen) && (relist ==> s.behind)
    ensures Bounded(BegunListing(s, h, chosen + live, relist))
  {
    var after := BegunListing(s, h, chosen + live, relist);
    assert Have(after) == Have(s);
  }

  lemma BeginListingBase(s: System, h: Hints, chosen: set<Key>, live: set<Key>, relist: bool)
    requires Inv(s) && !s.refreshing && TookBatch(s.hints, h, chosen)
    ensures var after := BegunListing(s, h, chosen + live, relist); MarkKept(after) && BaseKept(after)
  {
    var after := BegunListing(s, h, chosen + live, relist);
    assert Have(after) == Have(s);
    assert forall i :: StoredEntry(s, i) == StoredEntry(after, i);
    assert forall i :: GotEntry(s, i) ==> GotEntry(after, i);
    assert forall i: nat :: i < |s.journal| && s.journal[i].key in chosen + live ==> GotEntry(after, i);
  }

  lemma BeginListingRelisting(s: System, h: Hints, chosen: set<Key>, live: set<Key>, relist: bool)
    requires Inv(s) && !s.refreshing && TookBatch(s.hints, h, chosen)
    ensures RelistingKept(BegunListing(s, h, chosen + live, relist))
  {
    var after := BegunListing(s, h, chosen + live, relist);
    assert Have(after) == Have(s);
  }

  /** Whatever a refresh lists, the hints it took are among it. */
  lemma BeginHints(s: System, h: Hints, chosen: set<Key>, after: System)
    requires Inv(s) && !s.refreshing && TookBatch(s.hints, h, chosen)
    requires after.world == s.world && after.journal == s.journal && Have(after) == Have(s)
    requires after.from == s.from && after.at == s.at && after.refreshing
    requires forall k :: k in chosen ==> k in after.flight && after.flight[k] == Ver(s.world, k)
    requires after.hints.hinted == h.hinted && chosen <= after.hints.taken
    requires after.hints.hintMark == h.hintMark && after.hints.markTaken == h.markTaken
             && after.hints.markBefore == h.markBefore
    ensures HintsKept(after)
  {
    assert forall i :: HadEntry(s, i) == HadEntry(after, i);
    assert forall i :: HadEntry(s, i) ==> GotEntry(after, i);
    assert forall i :: GotEntry(s, i) ==> HadEntry(s, i);
    forall i | s.from <= i < s.at && s.journal[i].key !in h.hinted
      ensures GotEntry(after, i) && (s.journal[i].key in after.hints.taken || HadEntry(after, i))
    {
      if s.journal[i].key in s.hints.hinted {
        assert s.journal[i].key in chosen;
      }
    }
  }

  lemma BeginListingKeeps(s: System, h: Hints, chosen: set<Key>, live: set<Key>, relist: bool)
    requires Inv(s) && !s.refreshing && TookBatch(s.hints, h, chosen) && (relist ==> s.behind)
    ensures Inv(BegunListing(s, h, chosen + live, relist))
  {
    BeginListingBounded(s, h, chosen, live, relist);
    BeginListingBase(s, h, chosen, live, relist);
    BeginListingRelisting(s, h, chosen, live, relist);
    BeginHints(s, h, chosen, BegunListing(s, h, chosen + live, relist));
  }

  lemma BeginKeeps(s: System, chosen: set<Key>, live: set<Key>)
    requires Inv(s) && !s.refreshing && IsBatch(s.hints, chosen)
    ensures Inv(Begun(s, chosen, live))
  {
    var h := TakenHints(s.hints, chosen);
    BatchTaken(s.hints, chosen);
    var full := !h.lastFull && !h.resumePending;
    if full && !s.behind {
      BeginFullyKeeps(s, h, chosen);
      BeginHints(s, h, chosen, BegunFully(s, h, chosen));
    } else {
      BeginListingKeeps(s, h, chosen, live, full);
    }
  }

  // The listing behind serving.

  /** Nothing but the listing behind serving differs. */
  ghost predicate SameButRelisting(s: System, after: System) {
    after == s.(hints := s.hints.(relisting := after.hints.relisting))
  }

  lemma RelistingAside(s: System, after: System)
    requires Inv(s) && SameButRelisting(s, after) && s.hints.relisting.Some? && RelistingKept(after)
    ensures Inv(after)
  {
    hide RelistingKept;
    assert Have(after) == Have(s);
    assert forall i :: StoredEntry(s, i) == StoredEntry(after, i);
    assert forall i :: GotEntry(s, i) == GotEntry(after, i);
    assert forall i :: HadEntry(s, i) == HadEntry(after, i);
  }

  lemma ChunkListedKeeps(s: System, keys: set<Key>)
    requires Inv(s) && s.hints.relisting.Some? && keys <= s.hints.relisting.value.todo
    ensures RelistingKept(ChunkListed(s, keys))
  {
    assert Have(ChunkListed(s, keys)) == Have(s);
  }

  lemma ChunkRefusedKeeps(s: System, keys: set<Key>)
    requires Inv(s) && s.hints.relisting.Some? && keys <= s.hints.relisting.value.todo
    ensures RelistingKept(ChunkRefused(s, keys))
  {
    assert Have(ChunkRefused(s, keys)) == Have(s);
  }

  lemma TakeBounded(s: System, keys: set<Key>)
    requires Inv(s) && s.refreshing && s.hints.relisting.Some?
    requires keys <= s.hints.relisting.value.ready.Keys
    ensures Bounded(TookRelisted(s, keys))
  {
    assert Have(TookRelisted(s, keys)) == Have(s);
  }

  lemma TakeKeepsGot(s: System, keys: set<Key>, k: Key, v: nat)
    requires Inv(s) && s.refreshing && s.hints.relisting.Some?
    requires keys <= s.hints.relisting.value.ready.Keys
    ensures Got(s, k, v) ==> Got(TookRelisted(s, keys), k, v)
  {
    assert Have(TookRelisted(s, keys)) == Have(s);
  }

  lemma TakeRelistingKept(s: System, keys: set<Key>)
    requires Inv(s) && s.refreshing && s.hints.relisting.Some?
    requires keys <= s.hints.relisting.value.ready.Keys
    ensures RelistingKept(TookRelisted(s, keys))
  {
    var after := TookRelisted(s, keys);
    assert Have(after) == Have(s);
    var r := s.hints.relisting.value;
    forall k | k in r.start ensures Got(s, k, r.start[k]) ==> Got(after, k, r.start[k]) {
      TakeKeepsGot(s, keys, k, r.start[k]);
    }
  }

  lemma TakeEntries(s: System, keys: set<Key>)
    requires Inv(s) && s.refreshing && s.hints.relisting.Some?
    requires keys <= s.hints.relisting.value.ready.Keys
    ensures var after := TookRelisted(s, keys); HintsKept(after) && MarkKept(after) && BaseKept(after)
  {
    var after := TookRelisted(s, keys);
    assert Have(after) == Have(s);
    forall i: nat
      ensures StoredEntry(s, i) == StoredEntry(after, i)
      ensures HadEntry(s, i) == HadEntry(after, i)
      ensures GotEntry(s, i) ==> GotEntry(after, i)
    {
      if i < |s.journal| {
        TakeKeepsGot(s, keys, s.journal[i].key, s.journal[i].ver);
      }
    }
    var r := s.hints.relisting.value;
    forall i: nat | i < s.from && i < |s.journal| && s.journal[i].key !in after.left
      ensures s.journal[i].key in s.left ==> GotEntry(after, i)
      ensures after.hints.relisting.None? ==> GotEntry(after, i)
    {
      TakeListsBase(s, keys, i);
    }
  }

  /** What was announced before the process began and is not left to the hints, a finished
      listing listed. */
  lemma TakeListsBase(s: System, keys: set<Key>, i: nat)
    requires Inv(s) && s.refreshing && s.hints.relisting.Some?
    requires keys <= s.hints.relisting.value.ready.Keys
    requires i < s.from && i < |s.journal| && s.journal[i].key !in TookRelisted(s, keys).left
    ensures s.journal[i].key in s.left ==> GotEntry(TookRelisted(s, keys), i)
    ensures TookRelisted(s, keys).hints.relisting.None? ==> GotEntry(TookRelisted(s, keys), i)
  {
    var after := TookRelisted(s, keys);
    var r := s.hints.relisting.value;
    var k, v := s.journal[i].key, s.journal[i].ver;
    assert Have(after) == Have(s);
    assert v <= Ver(r.start, k);
    if k in r.ready && k in keys && k !in r.seen {
      assert after.flight[k] == r.ready[k] && Ver(r.start, k) <= r.ready[k];
      assert Got(after, k, v);
    } else if k in r.start {
      assert k !in s.left && k !in r.refused;
      TakeKeepsGot(s, keys, k, r.start[k]);
      assert Got(s, k, r.start[k]) ==> Got(after, k, v);
      assert k in r.ready && k !in keys ==> k in r.ready - keys;
    } else {
      assert v == 0 && Got(after, k, v);
    }
  }

  // The ends of a refresh, and of the process.

  lemma EndBounded(s: System)
    requires Inv(s) && s.refreshing && s.flight == map[]
    ensures Bounded(Ended(s))
  {
    hide RelistingKept, BaseKept, MarkKept, HintsKept;
    assert Have(Ended(s)) == Have(s);
  }

  lemma EndRelisting(s: System)
    requires Inv(s) && s.refreshing && s.flight == map[]
    ensures RelistingKept(Ended(s))
  {
    hide Bounded, BaseKept, MarkKept, HintsKept;
    assert Have(Ended(s)) == Have(s);
  }

  lemma EndEntries(s: System)
    requires Inv(s) && s.refreshing && s.flight == map[]
    ensures var after := Ended(s); HintsKept(after) && MarkKept(after) && BaseKept(after)
  {
    var after := Ended(s);
    assert Have(after) == Have(s);
    assert forall i :: StoredEntry(s, i) == StoredEntry(after, i);
    assert forall i :: HadEntry(s, i) == HadEntry(after, i);
    assert forall i :: GotEntry(s, i) == GotEntry(after, i) == HadEntry(s, i);
  }

  lemma GiveUpBounded(s: System, relistingToo: bool)
    requires Inv(s) && s.refreshing
    ensures Bounded(GaveUp(s, relistingToo)) && RelistingKept(GaveUp(s, relistingToo))
  {
    hide BaseKept, MarkKept, HintsKept;
    assert Have(GaveUp(s, relistingToo)) == Have(s);
  }

  lemma GiveUpHints(s: System, relistingToo: bool)
    requires Inv(s) && s.refreshing
    ensures HintsKept(GaveUp(s, relistingToo)) && MarkKept(GaveUp(s, relistingToo))
  {
    var after := GaveUp(s, relistingToo);
    assert Have(after) == Have(s);
    assert forall i :: StoredEntry(s, i) == StoredEntry(after, i);
    assert forall i :: HadEntry(s, i) == HadEntry(after, i);
    assert forall i :: HadEntry(s, i) ==> GotEntry(after, i);
  }

  lemma GiveUpBase(s: System, relistingToo: bool)
    requires Inv(s) && s.refreshing
    ensures BaseKept(GaveUp(s, relistingToo))
  {
    var after := GaveUp(s, relistingToo);
    assert Have(after) == Have(s);
    assert forall i :: StoredEntry(s, i) == StoredEntry(after, i);
    forall i: nat | i < |s.journal| && s.journal[i].key !in s.flight
      ensures GotEntry(s, i) ==> GotEntry(after, i)
    {
    }
  }

  lemma RestartKeeps(s: System, resume: bool, p: nat)
    requires Inv(s) && p <= |s.journal| && (resume ==> s.mark == IndexStore.Some(p))
    ensures Inv(Restarted(s, resume, p))
  {
    var after := Restarted(s, resume, p);
    assert Have(after) == s.store;
    assert forall k :: Ver(s.store, k) <= Ver(Have(s), k);
    assert forall i :: StoredEntry(s, i) == StoredEntry(after, i);
    assert forall i :: StoredEntry(s, i) ==> GotEntry(after, i);
  }

  // Everything else moves only the world, the journal or the hints.

  ghost predicate Outside(s: System, after: System) {
    && Have(after) == Have(s) && after.store == s.store && after.pend == s.pend && after.mem == s.mem
    && after.flight == s.flight && after.left == s.left && after.refreshing == s.refreshing
    && after.from == s.from && after.putFrom == s.putFrom && after.clean == s.clean
    && after.mark == s.mark && after.behind == s.behind
    && after.hints.taken == s.hints.taken && after.hints.listedFull == s.hints.listedFull
    && after.hints.relisting == s.hints.relisting
    && after.hints.markTaken == s.hints.markTaken && after.hints.markBefore == s.hints.markBefore
    && (after.hints.lastFull ==> s.hints.lastFull) && (after.hints.resumePending ==> s.hints.resumePending)
    && s.hints.hinted <= after.hints.hinted && UpTo(after.hints.hintMark, after.at)
    && s.at <= after.at <= |after.journal| && s.journal <= after.journal
    && (forall k :: Ver(s.world, k) <= Ver(after.world, k))
    && (forall i :: |s.journal| <= i < |after.journal| ==>
          after.journal[i].ver <= Ver(after.world, after.journal[i].key))
    && (forall i :: s.at <= i < after.at ==> after.journal[i].key in after.hints.hinted)
  }

  lemma OutsideBounded(s: System, after: System)
    requires Inv(s) && Outside(s, after)
    ensures Bounded(after)
  {
    assert forall i: nat :: i < |s.journal| ==> after.journal[i] == s.journal[i];
  }

  lemma OutsideRelisting(s: System, after: System)
    requires Inv(s) && Outside(s, after)
    ensures RelistingKept(after)
  {
    assert forall i: nat :: i < |s.journal| ==> after.journal[i] == s.journal[i];
  }

  lemma OutsideHints(s: System, after: System)
    requires Inv(s) && Outside(s, after)
    ensures HintsKept(after)
  {
    assert forall i: nat :: i < |s.journal| ==> after.journal[i] == s.journal[i];
    assert forall i: nat :: i < |s.journal| ==> GotEntry(s, i) == GotEntry(after, i);
    assert forall i: nat :: i < |s.journal| ==> HadEntry(s, i) == HadEntry(after, i);
  }

  lemma OutsideBase(s: System, after: System)
    requires Inv(s) && Outside(s, after)
    ensures MarkKept(after) && BaseKept(after)
  {
    assert forall i: nat :: i < |s.journal| ==> after.journal[i] == s.journal[i];
    assert forall i: nat :: i < |s.journal| ==> StoredEntry(s, i) == StoredEntry(after, i);
    assert forall i: nat :: i < |s.journal| ==> GotEntry(s, i) == GotEntry(after, i);
  }

  lemma OutsideStep(s: System, a: Action)
    requires s.at <= |s.journal| && UpTo(s.hints.hintMark, s.at)
    requires a.Write? || a.Announce? || a.ExtraHints? || a.JournalAt? || a.RequestFull?
    ensures Outside(s, DoOutside(s, a))
  {
  }

  lemma DeliveredKeys(journal: seq<Entry>, at: nat, n: nat)
    requires at + n <= |journal|
    ensures forall i :: at <= i < at + n ==> journal[i].key in KeysOf(journal[at..at + n])
  {
    forall i | at <= i < at + n ensures journal[i].key in KeysOf(journal[at..at + n]) {
      assert journal[at..at + n][i - at] == journal[i];
    }
  }

  lemma DeliverStep(s: System, n: nat)
    requires s.at <= |s.journal| && UpTo(s.hints.hintMark, s.at)
    ensures Outside(s, DoOutside(s, Deliver(n)))
  {
    if s.at + n <= |s.journal| { DeliveredKeys(s.journal, s.at, n); }
    hide KeysOf;
  }

  // ------------------------------------------------------------------- any run

  lemma OutsideKeeps(s: System, a: Action)
    requires Inv(s)
    requires a.Write? || a.Announce? || a.Deliver? || a.ExtraHints? || a.JournalAt? || a.RequestFull?
    ensures Inv(DoOutside(s, a))
  {
    if a.Deliver? {
      DeliverStep(s, a.n);
    } else {
      OutsideStep(s, a);
    }
    var after := DoOutside(s, a);
    OutsideBounded(s, after);
    OutsideRelisting(s, after);
    OutsideHints(s, after);
    OutsideBase(s, after);
  }

  lemma ReadKeeps(s: System, found: Versions, applied: set<Key>, saved: set<Key>, kept: set<Key>, put: bool)
    requires Inv(s) && CanRead(s, found, saved, kept, put)
    ensures Inv(DoneReading(s, found, applied, saved, kept, put))
  {
    ReadBounded(s, found, applied, saved, kept, put);
    ReadEntries(s, found, applied, saved, kept, put);
    ReadRelisting(s, found, applied, saved, kept, put);
  }

  lemma TakeKeeps(s: System, keys: set<Key>)
    requires Inv(s) && s.refreshing && s.hints.relisting.Some?
    requires keys <= s.hints.relisting.value.ready.Keys
    ensures Inv(TookRelisted(s, keys))
  {
    TakeBounded(s, keys);
    TakeRelistingKept(s, keys);
    TakeEntries(s, keys);
  }

  lemma EndKeeps(s: System)
    requires Inv(s) && s.refreshing
    ensures s.flight == map[] ==> Inv(Ended(s))
    ensures Inv(GaveUp(s, true)) && Inv(GaveUp(s, false))
  {
    if s.flight == map[] {
      EndBounded(s);
      EndRelisting(s);
      EndEntries(s);
    }
    GiveUpBounded(s, true);
    GiveUpHints(s, true);
    GiveUpBase(s, true);
    GiveUpBounded(s, false);
    GiveUpHints(s, false);
    GiveUpBase(s, false);
  }

  lemma ChunksKeep(s: System, keys: set<Key>)
    requires Inv(s) && s.hints.relisting.Some? && keys <= s.hints.relisting.value.todo
    ensures Inv(ChunkListed(s, keys)) && Inv(ChunkRefused(s, keys))
  {
    ChunkListedKeeps(s, keys);
    RelistingAside(s, ChunkListed(s, keys));
    ChunkRefusedKeeps(s, keys);
    RelistingAside(s, ChunkRefused(s, keys));
  }

  lemma ListingSteps(s: System, a: Action)
    requires Inv(s) && (a.ListChunk? || a.RefuseChunk? || a.TakeRelisted?)
    ensures Inv(Do(s, a))
  {
    if s.hints.relisting.Some? {
      if !a.TakeRelisted? && a.keys <= s.hints.relisting.value.todo {
        ChunksKeep(s, a.keys);
      } else if a.TakeRelisted? && s.refreshing && a.keys <= s.hints.relisting.value.ready.Keys {
        TakeKeeps(s, a.keys);
      }
    }
  }

  lemma BeginStep(s: System, a: Action)
    requires Inv(s) && a.Begin?
    ensures Inv(Do(s, a))
  {
    if !s.refreshing && IsBatch(s.hints, a.chosen) {
      BeginKeeps(s, a.chosen, a.live);
      assert Do(s, a) == Begun(s, a.chosen, a.live);
    }
  }

  lemma ReadStep(s: System, a: Action)
    requires Inv(s) && a.Read?
    ensures Inv(Do(s, a))
  {
    if CanRead(s, a.found, a.saved, a.kept, a.put) {
      ReadKeeps(s, a.found, a.applied, a.saved, a.kept, a.put);
    }
  }

  lemma EndStep(s: System, a: Action)
    requires Inv(s) && (a.Applied? || a.Failed? || a.Crash?)
    ensures Inv(Do(s, a))
  {
    hide Restarted, Ended, GaveUp, HintsKept, MarkKept, RelistingKept, BaseKept;
    if a.Crash? {
      if a.resume && s.mark.Some? {
        RestartKeeps(s, true, s.mark.value);
      } else if a.position <= |s.journal| {
        RestartKeeps(s, false, a.position);
      }
    } else if s.refreshing {
      EndKeeps(s);
    }
  }

  lemma StepKeeps(s: System, a: Action)
    requires Inv(s)
    ensures Inv(Do(s, a))
  {
    match a
    case ListChunk(_) => ListingSteps(s, a);
    case RefuseChunk(_) => ListingSteps(s, a);
    case TakeRelisted(_) => ListingSteps(s, a);
    case Begin(_, _) => BeginStep(s, a);
    case Read(_, _, _, _, _) => ReadStep(s, a);
    case Applied => EndStep(s, a);
    case Failed(_) => EndStep(s, a);
    case Crash(_, _) => EndStep(s, a);
    case _ => OutsideKeeps(s, a);
  }

  lemma {:induction false} RunKeeps(behind: bool, actions: seq<Action>)
    ensures Inv(Run(behind, actions))
  {
    if actions != [] {
      RunKeeps(behind, actions[..|actions| - 1]);
      StepKeeps(Run(behind, actions[..|actions| - 1]), actions[|actions| - 1]);
    }
  }

  /** The store is at least as new as every announcement the persisted mark covers that was
      delivered to the process which put it, whatever failed or crashed. */
  lemma MarkNeverRunsAhead(behind: bool, actions: seq<Action>, i: nat)
    requires var s := Run(behind, actions);
             s.mark.Some? && s.putFrom <= i < s.mark.value
    ensures var s := Run(behind, actions);
            i < |s.journal| && Ver(s.store, s.journal[i].key) >= s.journal[i].ver
  {
    RunKeeps(behind, actions);
    assert StoredEntry(Run(behind, actions), i);
  }

  // ------------------------------------------- the announcements before a process began

  /** The action puts a mark. */
  predicate Puts(s: System, a: Action) {
    a.Read? && a.put && CanRead(s, a.found, a.saved, a.kept, a.put)
  }

  /** No mark is put while a key that a failed refresh or a refused listing gave back waits to
      be listed again. */
  ghost predicate PutsClean(behind: bool, actions: seq<Action>) {
    forall n :: 0 <= n < |actions| && Puts(Run(behind, actions[..n]), actions[n]) ==> Run(behind, actions[..n]).left == {}
  }

  lemma PutsCleanStep(behind: bool, actions: seq<Action>)
    requires actions != []
    ensures var n := |actions| - 1;
            PutsClean(behind, actions) ==
              (PutsClean(behind, actions[..n]) && (Puts(Run(behind, actions[..n]), actions[n]) ==> Run(behind, actions[..n]).left == {}))
  {
    hide Run, Puts;
    var n := |actions| - 1;
    assert forall m :: 0 <= m < n ==> actions[..n][m] == actions[m] && actions[..n][..m] == actions[..m];
  }

  lemma {:induction false} CleanExactly(behind: bool, actions: seq<Action>)
    ensures Run(behind, actions).clean <==> PutsClean(behind, actions)
  {
    hide Puts, Do, PutsClean;
    if actions != [] {
      var n := |actions| - 1;
      CleanExactly(behind, actions[..n]);
      PutsCleanStep(behind, actions);
      CleanStep(Run(behind, actions[..n]), actions[n]);
    } else {
      NoPuts(behind);
    }
  }

  lemma NoPuts(behind: bool)
    ensures PutsClean(behind, [])
  {
  }

  lemma OutsideAside(s: System, a: Action)
    requires a.Write? || a.Announce? || a.Deliver? || a.ExtraHints? || a.JournalAt? || a.RequestFull?
    ensures var after := DoOutside(s, a);
            after.clean == s.clean && after.left == s.left && after.hints.relisting == s.hints.relisting
  {
    hide KeysOf, Ver;
    match a {
      case Write(_) =>
      case Announce(_) =>
      case Deliver(_) =>
      case ExtraHints(_) =>
      case JournalAt =>
      case RequestFull =>
    }
  }

  lemma CleanStep(s: System, a: Action)
    ensures Do(s, a).clean <==> s.clean && (Puts(s, a) ==> s.left == {})
  {
    if a.Write? || a.Announce? || a.Deliver? || a.ExtraHints? || a.JournalAt? || a.RequestFull? {
      OutsideAside(s, a);
    }
    hide CanRead, IsBatch, Restrict, Listed, TakenHints, PersistableMark, FreshHints, DoOutside, AppliedHints,
      FailedHints;
  }

  /** The same for every announcement up to the mark, also those before that process began,
      provided no mark was put while something given back was waiting to be listed again. */
  lemma CleanMarkCoversAll(behind: bool, actions: seq<Action>, i: nat)
    requires PutsClean(behind, actions)
    requires var s := Run(behind, actions); s.mark.Some? && i < s.mark.value
    ensures var s := Run(behind, actions);
            i < |s.journal| && Ver(s.store, s.journal[i].key) >= s.journal[i].ver
  {
    CleanExactly(behind, actions);
    RunKeeps(behind, actions);
    assert StoredEntry(Run(behind, actions), i);
  }

  /** Nothing waits to be listed again, given back by a refresh or refused to a listing. */
  predicate NoneGivenBack(s: System) {
    s.left == {} && (s.hints.relisting.Some? ==> s.hints.relisting.value.refused == {})
  }

  lemma NoneGivenBackStep(s: System, a: Action)
    requires NoneGivenBack(s) && !a.RefuseChunk? && !a.Failed?
    ensures NoneGivenBack(Do(s, a))
  {
    if a.Write? || a.Announce? || a.Deliver? || a.ExtraHints? || a.JournalAt? || a.RequestFull? {
      OutsideAside(s, a);
    }
    hide CanRead, IsBatch, Restrict, Listed, PersistableMark, DoOutside, Ver;
  }

  /** Without a refused chunk or a failed refresh nothing is given back, and every put is clean. */
  lemma {:induction false} NothingGivenBack(behind: bool, actions: seq<Action>)
    requires forall a :: a in actions ==> !a.RefuseChunk? && !a.Failed?
    ensures NoneGivenBack(Run(behind, actions)) && PutsClean(behind, actions)
  {
    hide Puts, Do, PutsClean;
    if actions != [] {
      var n := |actions| - 1;
      NothingGivenBack(behind, actions[..n]);
      assert actions[n] in actions;
      NoneGivenBackStep(Run(behind, actions[..n]), actions[n]);
      PutsCleanStep(behind, actions);
    } else {
      NoPuts(behind);
    }
  }

  // ------------------------------------------------------------ given back, and saved

  /** The action gives the key back: a refresh that took it fails, or takes what a listing
      refused it. */
  predicate GivesBack(s: System, a: Action, k: Key) {
    || (a.Failed? && s.refreshing && k in s.hints.taken)
    || (a.TakeRelisted? && CanTake(s, a.keys) && k in s.hints.relisting.value.refused && !TakesUp(s, a.keys, k))
  }

  predicate CanTake(s: System, keys: set<Key>) {
    s.refreshing && s.hints.relisting.Some? && keys <= s.hints.relisting.value.ready.Keys
  }

  /** A refresh takes the key's listing. */
  predicate TakesUp(s: System, keys: set<Key>, k: Key)
    requires s.hints.relisting.Some?
  {
    k in s.hints.relisting.value.ready && k in keys - s.hints.relisting.value.seen
  }

  /** The action lists the key again, or ends the process. */
  predicate ListsAgain(s: System, a: Action, k: Key) {
    || (a.Begin? && !s.refreshing && IsBatch(s.hints, a.chosen) && k in Begun(s, a.chosen, a.live).flight)
    || (a.TakeRelisted? && CanTake(s, a.keys) && TakesUp(s, a.keys, k))
    || (a.Crash? && if a.resume then s.mark.Some? else a.position <= |s.journal|)
  }

  lemma LeftStep(s: System, a: Action, k: Key)
    ensures k in Do(s, a).left <==> GivesBack(s, a, k) || (k in s.left && !ListsAgain(s, a, k))
  {
    hide KeysOf, Ver, CanRead, IsBatch, Listed, PersistableMark, DoOutside, DoneReading, Begun, TookRelisted, ChunkListed,
      ChunkRefused;
    if a.Write? || a.Announce? || a.Deliver? || a.ExtraHints? || a.JournalAt? || a.RequestFull? {
      OutsideAside(s, a);
    } else if a.Begin? {
      BegunLeft(s, a.chosen, a.live);
    } else if a.Read? {
      ReadLeft(s, a);
    } else if a.TakeRelisted? && CanTake(s, a.keys) {
      TookLeft(s, a.keys, k);
    } else if (a.ListChunk? || a.RefuseChunk?) && s.hints.relisting.Some? {
      ChunkLeft(s, a.keys);
    }
  }

  lemma TookLeft(s: System, keys: set<Key>, k: Key)
    requires CanTake(s, keys)
    ensures k in TookRelisted(s, keys).left
            <==> (k in s.left || k in s.hints.relisting.value.refused) && !TakesUp(s, keys, k)
  {
  }

  lemma ChunkLeft(s: System, keys: set<Key>)
    requires s.hints.relisting.Some?
    ensures ChunkListed(s, keys).left == ChunkRefused(s, keys).left == s.left
  {
  }

  lemma BegunLeft(s: System, chosen: set<Key>, live: set<Key>)
    ensures Begun(s, chosen, live).left == s.left - Begun(s, chosen, live).flight.Keys
  {
  }

  lemma ReadLeft(s: System, a: Action)
    requires a.Read?
    ensures DoneReading(s, a.found, a.applied, a.saved, a.kept, a.put).left == s.left
  {
  }

  /** Some action gave the key back, and none since listed it again. */
  ghost predicate StillGivenBack(behind: bool, actions: seq<Action>, k: Key) {
    exists m :: 0 <= m < |actions| && GaveBackAt(behind, actions, m, k)
  }

  ghost predicate GaveBackAt(behind: bool, actions: seq<Action>, m: nat, k: Key)
    requires m < |actions|
  {
    && GivesBack(Run(behind, actions[..m]), actions[m], k)
    && forall j :: m < j < |actions| ==> !ListsAgain(Run(behind, actions[..j]), actions[j], k)
  }

  lemma GaveBackOn(behind: bool, actions: seq<Action>, m: nat, k: Key)
    requires m < |actions|
    ensures var n := |actions| - 1;
            GaveBackAt(behind, actions, m, k) <==>
              if m == n then GivesBack(Run(behind, actions[..n]), actions[n], k)
              else GaveBackAt(behind, actions[..n], m, k) && !ListsAgain(Run(behind, actions[..n]), actions[n], k)
  {
    hide Run, GivesBack, ListsAgain;
    var n := |actions| - 1;
    assert forall j :: 0 <= j < n ==> actions[..n][j] == actions[j] && actions[..n][..j] == actions[..j];
  }

  /** What waits to be listed again is what was given back and not listed since. */
  lemma {:induction false} LeftIsGivenBack(behind: bool, actions: seq<Action>, k: Key)
    ensures k in Run(behind, actions).left <==> StillGivenBack(behind, actions, k)
  {
    hide Do, GivesBack, ListsAgain, GaveBackAt;
    if actions != [] {
      var n := |actions| - 1;
      LeftIsGivenBack(behind, actions[..n], k);
      LeftStep(Run(behind, actions[..n]), actions[n], k);
      forall m: nat | m < |actions|
        ensures GaveBackAt(behind, actions, m, k) <==>
                if m == n then GivesBack(Run(behind, actions[..n]), actions[n], k)
                else GaveBackAt(behind, actions[..n], m, k) && !ListsAgain(Run(behind, actions[..n]), actions[n], k)
      {
        GaveBackOn(behind, actions, m, k);
      }
      if k in Run(behind, actions).left {
        if GivesBack(Run(behind, actions[..n]), actions[n], k) {
          assert GaveBackAt(behind, actions, n, k);
        } else {
          var m :| 0 <= m < n && GaveBackAt(behind, actions[..n], m, k);
          assert GaveBackAt(behind, actions, m, k);
        }
      }
    }
  }

  /** The action commits version `v` of the key, or a newer one. */
  predicate Commits(s: System, a: Action, k: Key, v: nat) {
    && a.Read? && CanRead(s, a.found, a.saved, a.kept, a.put) && k in a.saved
    && var unsaved := s.pend + map x | x in a.found && a.found[x] != Ver(s.mem, x) :: a.found[x];
       k in unsaved && unsaved[k] >= v
  }

  ghost predicate SavedSince(behind: bool, actions: seq<Action>, k: Key, v: nat) {
    exists m :: 0 <= m < |actions| && Commits(Run(behind, actions[..m]), actions[m], k, v)
  }

  lemma StoreStep(s: System, a: Action, k: Key, v: nat)
    requires Bounded(s) && v > 0
    ensures Ver(Do(s, a).store, k) >= v <==> Ver(s.store, k) >= v || Commits(s, a, k, v)
  {
    hide KeysOf, IsBatch, Listed, PersistableMark, DoOutside, Begun, TookRelisted, CanRead;
    if a.Write? || a.Announce? || a.Deliver? || a.ExtraHints? || a.JournalAt? || a.RequestFull? {
      OutsideStores(s, a);
    } else if a.Read? {
      ReadStores(s, a, k, v);
    } else {
      OtherStores(s, a);
    }
  }

  lemma IsOutside(s: System, a: Action)
    requires a.Write? || a.Announce? || a.Deliver? || a.ExtraHints? || a.JournalAt? || a.RequestFull?
    ensures Do(s, a) == DoOutside(s, a)
  {
    hide DoOutside;
  }

  lemma OutsideStores(s: System, a: Action)
    requires a.Write? || a.Announce? || a.Deliver? || a.ExtraHints? || a.JournalAt? || a.RequestFull?
    ensures Do(s, a).store == s.store
  {
    hide KeysOf, Ver, Do;
    IsOutside(s, a);
  }

  lemma OtherStores(s: System, a: Action)
    requires !(a.Write? || a.Announce? || a.Deliver? || a.ExtraHints? || a.JournalAt? || a.RequestFull?) && !a.Read?
    ensures Do(s, a).store == s.store
  {
    hide KeysOf, Ver, IsBatch, Listed, PersistableMark, Restrict, DoOutside, CanRead;
  }

  lemma ReadStores(s: System, a: Action, k: Key, v: nat)
    requires a.Read? && Bounded(s)
    ensures Ver(Do(s, a).store, k) >= v <==> Ver(s.store, k) >= v || Commits(s, a, k, v)
  {
    hide KeysOf, PersistableMark;
  }

  /** The store has a version just when an action committed it or a newer one. */
  lemma {:induction false} StoredIsSaved(behind: bool, actions: seq<Action>, k: Key, v: nat)
    requires v > 0
    ensures Ver(Run(behind, actions).store, k) >= v <==> SavedSince(behind, actions, k, v)
  {
    hide Do, Commits, Inv, Ver;
    if actions != [] {
      var n := |actions| - 1;
      StoredIsSaved(behind, actions[..n], k, v);
      RunKeeps(behind, actions[..n]);
      assert Bounded(Run(behind, actions[..n])) by { InvBounds(Run(behind, actions[..n])); }
      StoreStep(Run(behind, actions[..n]), actions[n], k, v);
      assert forall m :: 0 <= m < n ==> actions[..n][m] == actions[m] && actions[..n][..m] == actions[..m];
      if SavedSince(behind, actions[..n], k, v) {
        var m :| 0 <= m < n && Commits(Run(behind, actions[..n][..m]), actions[..n][m], k, v);
        assert Commits(Run(behind, actions[..m]), actions[m], k, v);
      }
      if SavedSince(behind, actions, k, v) {
        var m :| 0 <= m < |actions| && Commits(Run(behind, actions[..m]), actions[m], k, v);
        if m < n { assert Commits(Run(behind, actions[..n][..m]), actions[..n][m], k, v); }
      }
    } else {
      NothingStored(behind, k);
    }
  }

  lemma NothingStored(behind: bool, k: Key)
    ensures Ver(Run(behind, []).store, k) == 0
  {
  }

  lemma InvBounds(s: System)
    requires Inv(s)
    ensures Bounded(s)
  {
  }

  /** What a mark just put covers, every earlier one having been put clean: everything, if and
      only if each version announced before the process began, of a key that was given back
      and not listed since, was committed by some action. */
  lemma PutCoversExactly(behind: bool, actions: seq<Action>, a: Action)
    requires Puts(Run(behind, actions), a) && PutsClean(behind, actions)
    ensures var s, after := Run(behind, actions), Run(behind, actions + [a]);
            && after.mark.Some?
            && ((forall i: nat :: i < after.mark.value ==> StoredEntry(after, i)) <==>
                forall i: nat :: i < s.from && i < after.mark.value && i < |s.journal|
                                 && StillGivenBack(behind, actions, s.journal[i].key) && s.journal[i].ver > 0 ==>
                  SavedSince(behind, actions + [a], s.journal[i].key, s.journal[i].ver))
  {
    hide Inv, Do, Run, StillGivenBack, SavedSince, Ver, PutsClean, CanRead, GotEntry;
    var s, after := Run(behind, actions), Run(behind, actions + [a]);
    RunKeeps(behind, actions);
    CleanExactly(behind, actions);
    RunOn(behind, actions, a);
    PutIs(s, a);
    forall i: nat | i < |s.journal|
      ensures StoredEntry(after, i) <==> s.journal[i].ver == 0 || SavedSince(behind, actions + [a], s.journal[i].key, s.journal[i].ver)
      ensures s.journal[i].key in s.left <==> StillGivenBack(behind, actions, s.journal[i].key)
    {
      if s.journal[i].ver > 0 { StoredIsSaved(behind, actions + [a], s.journal[i].key, s.journal[i].ver); }
      LeftIsGivenBack(behind, actions, s.journal[i].key);
    }
    PutCovers(s, a.found, a.applied, a.saved, a.kept);
  }

  lemma PutIs(s: System, a: Action)
    requires Puts(s, a)
    ensures Do(s, a) == DoneReading(s, a.found, a.applied, a.saved, a.kept, true) && Do(s, a).journal == s.journal
    ensures CanRead(s, a.found, a.saved, a.kept, true)
  {
  }

  /** What is left to ask is whether the keys given back are stored. */
  lemma PutCovers(s: System, found: Versions, applied: set<Key>, saved: set<Key>, kept: set<Key>)
    requires Inv(s) && s.clean && CanRead(s, found, saved, kept, true)
    ensures var after := DoneReading(s, found, applied, saved, kept, true);
            && after.mark.Some?
            && ((forall i: nat :: i < after.mark.value ==> StoredEntry(after, i)) <==>
                forall i: nat :: i < s.from && i < after.mark.value && i < |s.journal| && s.journal[i].key in s.left ==>
                  StoredEntry(after, i))
  {
    var after := DoneReading(s, found, applied, saved, kept, true);
    forall i: nat ensures GotEntry(s, i) ==> StoredEntry(after, i) {
      if i < |s.journal| {
        HaveAfterRead(s, found, applied, saved, kept, true, s.journal[i].key);
      }
    }
    forall i: nat | i < after.mark.value && !(i < s.from && i < |s.journal| && s.journal[i].key in s.left)
      ensures StoredEntry(after, i)
    {
      assert GotEntry(s, i);
    }
  }

  lemma RunOn(behind: bool, actions: seq<Action>, a: Action)
    ensures Run(behind, actions + [a]) == Do(Run(behind, actions), a)
  {
    assert (actions + [a])[..|actions|] == actions;
  }

  /** A process that started cold, behind serving, on one record changed before it began. */
  ghost predicate ColdOnOne(s: System) {
    && s.behind && s.world == map["a" := 1] && s.journal == [Entry("a", 1)] && s.from == s.at == 1
    && s.hints == FreshHints(false).(hintMark := IndexStore.Some(1))
    && s.store == map[] && s.pend == s.store && !s.refreshing && s.flight == s.store && s.left == {}
  }

  lemma ColdStart()
    ensures ColdOnOne(Run(true, [Write("a"), Announce("a"), Crash(false, 1), JournalAt]))
  {
    RunOn(true, [], Write("a"));
    assert [] + [Write("a")] == [Write("a")];
    RunOn(true, [Write("a")], Announce("a"));
    assert [Write("a")] + [Announce("a")] == [Write("a"), Announce("a")];
    RunOn(true, [Write("a"), Announce("a")], Crash(false, 1));
    assert [Write("a"), Announce("a")] + [Crash(false, 1)] == [Write("a"), Announce("a"), Crash(false, 1)];
    RunOn(true, [Write("a"), Announce("a"), Crash(false, 1)], JournalAt);
    assert [Write("a"), Announce("a"), Crash(false, 1)] + [JournalAt]
        == [Write("a"), Announce("a"), Crash(false, 1), JournalAt];
  }

  /** Its first refresh is about to list that record. */
  ghost predicate ListingOne(b: System) {
    && b.store == map[] && b.pend == b.store && b.flight == b.store && b.left == {} && b.refreshing
    && b.hints.relisting.Some? && b.hints.markTaken == IndexStore.Some(1) && !b.hints.awaitingReplay
    && var r := b.hints.relisting.value;
       r.todo == {"a"} && r.ready == b.store && r.refused == {} && r.seen == {}
  }

  lemma ListingBegins(s: System)
    requires ColdOnOne(s)
    ensures var b := Do(s, Begin({}, {})); ListingOne(b) && b.journal == s.journal
  {
    var b := Do(s, Begin({}, {}));
    assert b.hints.relisting.Some? && b.hints.relisting.value.todo == {"a"};
    assert b.flight == map[] && b.left == {};
  }

  /** Its listing of everything gives up on the one chunk, then ends. */
  lemma ChunkGivenUp(b: System)
    requires ListingOne(b)
    ensures var t := Do(Do(b, RefuseChunk({"a"})), TakeRelisted({}));
            && t.store == b.store && t.journal == b.journal && t.left == {"a"} && t.flight == b.store && t.refreshing
            && t.pend == b.store && PersistableMark(t.hints) == IndexStore.Some(1)
  {
    var c := Do(b, RefuseChunk({"a"}));
    assert c.hints.relisting.value.todo == {} && c.hints.relisting.value.refused == {"a"};
  }

  /** The refresh then saves nothing, and the mark with it. */
  lemma MarkPutRegardless(t: System)
    requires t.store == map[] && t.pend == map[] && t.flight == map[] && t.refreshing
    requires PersistableMark(t.hints) == IndexStore.Some(1) && t.journal == [Entry("a", 1)]
    ensures var s := Do(t, Read(map[], {}, {}, {}, true));
            s.mark == IndexStore.Some(1) && s.journal == t.journal && Ver(s.store, "a") == 0
  {
    assert CanRead(t, map[], {}, {}, true);
  }

  /** Why `CleanMarkCoversAll` asks for clean puts: a cold start whose listing gave up on
      a chunk puts a mark past a change announced before it and not in the store. */
  lemma RefusedChunkLeavesMarkAhead() returns (actions: seq<Action>)
    ensures var s := Run(true, actions);
            s.mark == IndexStore.Some(1) && |s.journal| == 1
            && Ver(s.store, s.journal[0].key) < s.journal[0].ver
  {
    var cold := [Write("a"), Announce("a"), Crash(false, 1), JournalAt];
    ColdStart();
    var begun := Do(Run(true, cold), Begin({}, {}));
    ListingBegins(Run(true, cold));
    ChunkGivenUp(begun);
    actions := FourMore(true, cold, Begin({}, {}), RefuseChunk({"a"}), TakeRelisted({}),
                        Read(map[], {}, {}, {}, true));
    MarkPutRegardless(Do(Do(begun, RefuseChunk({"a"})), TakeRelisted({})));
  }

  lemma FourMore(behind: bool, actions: seq<Action>, a: Action, b: Action, c: Action, d: Action)
    returns (more: seq<Action>)
    ensures Run(behind, more) == Do(Do(Do(Do(Run(behind, actions), a), b), c), d)
  {
    RunOn(behind, actions, a);
    RunOn(behind, actions + [a], b);
    RunOn(behind, actions + [a] + [b], c);
    RunOn(behind, actions + [a] + [b] + [c], d);
    more := actions + [a] + [b] + [c] + [d];
  }
}

/**
 The journal mark moves on (`index_sweep`, `index_sweep_behind`): where `journal_mark.dfy` says
 that it never runs ahead of the store, here a refresh that leaves no hint waiting takes the
 last position it was told (`BeginTakesPosition`), puts just that when it saved all it listed,
 whatever happens meanwhile (`PositionIsPut`), and from any state with few enough hints a
 refresh catches up with the journal (`CatchesUp`).
 */
module JournalProgress {
  import IndexStore
  import opened JournalMarks

  /** The position last said to be the journal's to the process running, if any. */
  function LastPosition(behind: bool, actions: seq<Action>): Option<nat> {
    if actions == [] then IndexStore.None
    else
      var before, a := actions[..|actions| - 1], actions[|actions| - 1];
      var s := Run(behind, before);
      if a.JournalAt? then IndexStore.Some(s.at)
      else if Restarts(s, a) then IndexStore.None
      else LastPosition(behind, before)
  }

  predicate Restarts(s: System, a: Action) { a.Crash? && if a.resume then s.mark.Some? else a.position <= |s.journal| }

  lemma PositionStep(s: System, a: Action)
    ensures Do(s, a).hints.hintMark
            == if a.JournalAt? then IndexStore.Some(s.at) else if Restarts(s, a) then IndexStore.None else s.hints.hintMark
  {
    hide KeysOf, Ver, CanRead, IsBatch, Listed, Restrict, PersistableMark, DoOutside, Begun, TookRelisted, DoneReading, GaveUp;
    if a.Write? || a.Announce? || a.Deliver? || a.ExtraHints? || a.JournalAt? || a.RequestFull? {
      OutsideMarks(s, a);
    } else if a.Begin? {
      BegunPosition(s, a.chosen, a.live);
    } else if a.Read? {
      ReadMarks(s, a);
    } else if a.TakeRelisted? && s.hints.relisting.Some? {
      TookMarks(s, a.keys);
    } else if a.Failed? {
      GaveUpPosition(s, a.relistingToo);
    }
  }

  lemma OutsideMarks(s: System, a: Action)
    requires a.Write? || a.Announce? || a.Deliver? || a.ExtraHints? || a.JournalAt? || a.RequestFull?
    ensures Do(s, a).hints.hintMark == if a.JournalAt? then IndexStore.Some(s.at) else s.hints.hintMark
    ensures Do(s, a).hints.markTaken == s.hints.markTaken && Do(s, a).refreshing == s.refreshing
  {
    hide *;
    IsOutside(s, a);
    match a {
      case Write(k) => WriteOutside(s, k);
      case Announce(k) => AnnounceOutside(s, k);
      case Deliver(n) => DeliverOutside(s, n);
      case ExtraHints(keys) => OtherOutside(s, a);
      case JournalAt => OtherOutside(s, a);
      case RequestFull => OtherOutside(s, a);
    }
  }

  lemma WriteOutside(s: System, k: Key)
    ensures DoOutside(s, Write(k)).hints == s.hints && DoOutside(s, Write(k)).refreshing == s.refreshing
  {
    hide Ver;
  }

  lemma AnnounceOutside(s: System, k: Key)
    ensures DoOutside(s, Announce(k)).hints == s.hints && DoOutside(s, Announce(k)).refreshing == s.refreshing
  {
    hide Ver;
  }

  lemma DeliverOutside(s: System, n: nat)
    ensures var after := DoOutside(s, Deliver(n));
            after.hints == s.hints.(hinted := after.hints.hinted) && after.refreshing == s.refreshing
  {
    hide KeysOf;
  }

  lemma OtherOutside(s: System, a: Action)
    requires a.ExtraHints? || a.JournalAt? || a.RequestFull?
    ensures var after := DoOutside(s, a);
            && after.hints.hintMark == (if a.JournalAt? then IndexStore.Some(s.at) else s.hints.hintMark)
            && after.hints.markTaken == s.hints.markTaken && after.refreshing == s.refreshing
  {
  }

  lemma BegunPosition(s: System, chosen: set<Key>, live: set<Key>)
    ensures Begun(s, chosen, live).hints.hintMark == s.hints.hintMark
  {
  }

  lemma ReadMarks(s: System, a: Action)
    requires a.Read?
    ensures var after := DoneReading(s, a.found, a.applied, a.saved, a.kept, a.put);
            after.hints == s.hints && after.refreshing == s.refreshing
  {
  }

  lemma TookMarks(s: System, keys: set<Key>)
    requires s.hints.relisting.Some?
    ensures var after := TookRelisted(s, keys);
            after.hints.hintMark == s.hints.hintMark && after.hints.markTaken == s.hints.markTaken
            && after.refreshing == s.refreshing
  {
  }

  lemma GaveUpPosition(s: System, relistingToo: bool)
    ensures GaveUp(s, relistingToo).hints.hintMark == s.hints.hintMark
  {
  }

  lemma {:induction false} PositionKnown(behind: bool, actions: seq<Action>)
    ensures Run(behind, actions).hints.hintMark == LastPosition(behind, actions)
  {
    hide Do;
    if actions != [] {
      var n := |actions| - 1;
      PositionKnown(behind, actions[..n]);
      PositionStep(Run(behind, actions[..n]), actions[n]);
    }
  }

  /** A refresh that leaves no hint waiting takes the last position as its mark. */
  lemma BeginTakesPosition(behind: bool, actions: seq<Action>, chosen: set<Key>, live: set<Key>)
    requires !Run(behind, actions).refreshing && IsBatch(Run(behind, actions).hints, chosen)
    ensures var after := Run(behind, actions + [Begin(chosen, live)]);
            after.refreshing && after.hints.hinted == Run(behind, actions).hints.hinted - chosen
            && (after.hints.hinted == {} ==> after.hints.markTaken == LastPosition(behind, actions))
  {
    PositionKnown(behind, actions);
    RunOn(behind, actions, Begin(chosen, live));
    BeginHinted(Run(behind, actions), chosen, live);
  }

  lemma BeginHinted(s: System, chosen: set<Key>, live: set<Key>)
    requires !s.refreshing && IsBatch(s.hints, chosen)
    ensures var after := Do(s, Begin(chosen, live));
            && after.refreshing && after.hints.hinted == s.hints.hinted - chosen
            && (after.hints.hinted == {} ==> after.hints.markTaken == s.hints.hintMark)
  {
    assert s.hints.hinted == chosen + (s.hints.hinted - chosen);
    assert |s.hints.hinted| == |chosen| + |s.hints.hinted - chosen|;
  }

  /** What may happen while a refresh goes on. */
  predicate Meanwhile(a: Action) {
    a.Write? || a.Announce? || a.Deliver? || a.ExtraHints? || a.JournalAt? || a.ListChunk? || a.RefuseChunk?
    || a.TakeRelisted? || a.Read?
  }

  lemma MarkTakenStays(s: System, a: Action)
    requires Meanwhile(a) && s.refreshing
    ensures Do(s, a).refreshing && Do(s, a).hints.markTaken == s.hints.markTaken
  {
    hide KeysOf, Ver, CanRead, IsBatch, Listed, Restrict, PersistableMark, DoOutside, TookRelisted, DoneReading;
    if a.Write? || a.Announce? || a.Deliver? || a.ExtraHints? || a.JournalAt? {
      OutsideMarks(s, a);
    } else if a.Read? {
      ReadMarks(s, a);
    } else if a.TakeRelisted? && s.hints.relisting.Some? {
      TookMarks(s, a.keys);
    }
  }

  lemma {:induction false} MarkTakenLasts(behind: bool, actions: seq<Action>, more: seq<Action>)
    requires Run(behind, actions).refreshing && forall a :: a in more ==> Meanwhile(a)
    ensures var s := Run(behind, actions + more);
            s.refreshing && s.hints.markTaken == Run(behind, actions).hints.markTaken
  {
    hide Do, Meanwhile;
    if more == [] {
      assert actions + more == actions;
    } else {
      var n := |more| - 1;
      assert (actions + more)[..|actions + more| - 1] == actions + more[..n] && more[n] in more;
      MarkTakenLasts(behind, actions, more[..n]);
      MarkTakenStays(Run(behind, actions + more[..n]), more[n]);
    }
  }

  /** All listed is read as it was listed, and with what is pending saved; the mark is put. */
  function ReadAll(s: System): Action { Read(s.flight, s.flight.Keys, s.flight.Keys + s.pend.Keys, {}, true) }

  /** A refresh that listed everything once, no replay awaited and no listing running, can put
      the mark it took. */
  lemma CanPut(s: System)
    requires Inv(s) && s.refreshing && s.hints.lastFull && !s.hints.awaitingReplay && s.hints.relisting.None?
    requires s.hints.markTaken.Some?
    ensures Puts(s, ReadAll(s)) && Do(s, ReadAll(s)).mark == s.hints.markTaken && Do(s, ReadAll(s)).refreshing
    ensures Do(s, ReadAll(s)).flight == map[] && Do(s, ReadAll(s)).pend == map[]
  {
    InvBounds(s);
  }

  /** Then memory and store hold what was listed. */
  lemma ReadAllHolds(s: System, k: Key)
    requires Bounded(s) && Puts(s, ReadAll(s)) && k in s.flight
    ensures Ver(Do(s, ReadAll(s)).mem, k) == s.flight[k] && Ver(Do(s, ReadAll(s)).store, k) == s.flight[k]
  {
    assert Ver(s.mem, k) <= Ver(Have(s), k) <= s.flight[k];
    hide IsBatch, PersistableMark, KeysOf;
  }

  /** A refresh that left no hint waiting and then saves all it listed puts the mark at the
      last position said before it began, whatever happened meanwhile. */
  lemma PositionIsPut(behind: bool, actions: seq<Action>, chosen: set<Key>, live: set<Key>, more: seq<Action>)
    requires !Run(behind, actions).refreshing && IsBatch(Run(behind, actions).hints, chosen)
    requires Run(behind, actions + [Begin(chosen, live)]).hints.hinted == {} && LastPosition(behind, actions).Some?
    requires forall a :: a in more ==> Meanwhile(a)
    requires var s := Run(behind, actions + [Begin(chosen, live)] + more);
             s.hints.lastFull && !s.hints.awaitingReplay && s.hints.relisting.None?
    ensures var begun := actions + [Begin(chosen, live)] + more;
            var after := Run(behind, begun + [ReadAll(Run(behind, begun))]);
            after.mark == LastPosition(behind, actions) && after.refreshing && after.flight == map[]
  {
    hide Do, Inv;
    var begun := actions + [Begin(chosen, live)] + more;
    BeginTakesPosition(behind, actions, chosen, live);
    MarkTakenLasts(behind, actions + [Begin(chosen, live)], more);
    RunKeeps(behind, begun);
    CanPut(Run(behind, begun));
    RunOn(behind, begun, ReadAll(Run(behind, begun)));
  }

  /** From any state with no refresh under way and few enough hints: told the position, a
      refresh, with the listing behind serving done if one runs, puts the mark there. */
  lemma CatchesUp(behind: bool, actions: seq<Action>) returns (more: seq<Action>)
    requires var s := Run(behind, actions); !s.refreshing && |s.hints.hinted| <= HINTS_PER_REFRESH
    ensures Run(behind, actions + more).mark == IndexStore.Some(Run(behind, actions).at)
    ensures !Run(behind, actions + more).refreshing
  {
    hide Do, Inv, Run;
    var s := Run(behind, actions);
    var told := actions + [JournalAt];
    RunOn(behind, actions, JournalAt);
    RunKeeps(behind, told);
    ToldPosition(behind, actions);
    var t := Run(behind, told);
    var begin := Begin(t.hints.hinted, {});
    var b := Run(behind, told + [begin]);
    RunOn(behind, told, begin);
    RunKeeps(behind, told + [begin]);
    BeginHinted(t, t.hints.hinted, {});
    BeginListsAll(t, t.hints.hinted);
    var rest: seq<Action> := [];
    if b.hints.relisting.Some? {
      var all := ListChunk(b.hints.relisting.value.todo);
      var c := Do(b, all);
      AllListed(b);
      var take := TakeRelisted(c.hints.relisting.value.ready.Keys);
      AllTaken(c);
      rest := [all, take];
      RunOn(behind, told + [begin], all);
      RunOn(behind, told + [begin] + [all], take);
      assert told + [begin] + [all] + [take] == told + [begin] + rest;
    } else {
      assert told + [begin] + rest == told + [begin];
    }
    PositionIsPut(behind, told, t.hints.hinted, {}, rest);
    var begun := told + [begin] + rest;
    var read := begun + [ReadAll(Run(behind, begun))];
    RunOn(behind, read, Applied);
    RefreshEnds(Run(behind, read));
    more := [JournalAt] + [begin] + rest + [ReadAll(Run(behind, begun))] + [Applied];
    assert actions + more == read + [Applied];
  }

  /** A refresh that read all it listed ends: nothing it took waits any more. */
  lemma RefreshEnds(s: System)
    requires s.refreshing && s.flight == map[]
    ensures var after := Do(s, Applied);
            && !after.refreshing && after.hints.taken == {} && after.hints.hinted == s.hints.hinted
            && after.mark == s.mark && after.store == s.store && after.hints.markBefore == s.hints.markTaken
  {
  }

  /** One given up on hands back all it took, its mark with it, and a full listing of its own is
      owed again; the listing behind serving goes too if that is what failed. */
  lemma RefreshFails(s: System, relistingToo: bool)
    requires s.refreshing
    ensures var after := Do(s, Failed(relistingToo));
            && !after.refreshing && after.flight == map[] && after.hints.taken == {}
            && after.hints.hinted == s.hints.hinted + s.hints.taken && after.hints.markTaken == s.hints.markBefore
            && after.hints.lastFull == (s.hints.lastFull && !s.hints.listedFull)
            && after.hints.relisting == (if relistingToo then IndexStore.None else s.hints.relisting)
            && after.store == s.store && after.mark == s.mark
  {
  }

  /** Asked for a full listing, the next refresh lists everything: itself, or by the listing
      behind serving it begins, unless one runs. */
  lemma RequestIsListed(s: System, chosen: set<Key>, live: set<Key>)
    requires !s.refreshing && IsBatch(s.hints, chosen)
    ensures var b := Do(Do(s, RequestFull), Begin(chosen, live));
            if s.behind then
              b.hints.relisting.Some? && (s.hints.relisting.None? ==> b.hints.relisting.value.todo == s.world.Keys)
            else s.world.Keys <= b.flight.Keys && forall k :: k in s.world ==> b.flight[k] == s.world[k]
  {
    var t := Do(s, RequestFull);
    RequestIs(s);
    BeginIs(t, chosen, live);
    hide Do;
    BegunListsAll(t, chosen, live);
  }

  lemma RequestIs(s: System)
    ensures Do(s, RequestFull) == s.(hints := s.hints.(lastFull := false, resumePending := false))
  {
    IsOutside(s, RequestFull);
    hide Do;
  }

  lemma BeginIs(s: System, chosen: set<Key>, live: set<Key>)
    requires !s.refreshing && IsBatch(s.hints, chosen)
    ensures Do(s, Begin(chosen, live)) == Begun(s, chosen, live)
  {
    hide Begun, IsBatch;
  }

  lemma BegunListsAll(s: System, chosen: set<Key>, live: set<Key>)
    requires !s.hints.lastFull && !s.hints.resumePending
    ensures var b := Begun(s, chosen, live);
            if s.behind then
              b.hints.relisting.Some? && (s.hints.relisting.None? ==> b.hints.relisting.value.todo == s.world.Keys)
            else s.world.Keys <= b.flight.Keys && forall k :: k in s.world ==> b.flight[k] == s.world[k]
  {
  }

  lemma ToldPosition(behind: bool, actions: seq<Action>)
    requires !Run(behind, actions).refreshing
    ensures LastPosition(behind, actions + [JournalAt]) == IndexStore.Some(Run(behind, actions).at)
    ensures var s, t := Run(behind, actions), Run(behind, actions + [JournalAt]);
            !t.refreshing && !t.hints.awaitingReplay && t.hints.hinted == s.hints.hinted
  {
    assert (actions + [JournalAt])[..|actions|] == actions;
  }

  /** Once a refresh began, everything is listed, or will be by the listing that runs. */
  lemma BeginListsAll(s: System, chosen: set<Key>)
    requires Inv(s) && !s.refreshing && IsBatch(s.hints, chosen) && !s.hints.awaitingReplay
    ensures var b := Do(s, Begin(chosen, {}));
            !b.hints.awaitingReplay && (b.hints.relisting.None? ==> b.hints.lastFull)
  {
    InvBounds(s);
  }

  lemma AllListed(b: System)
    requires b.refreshing && b.hints.relisting.Some? && !b.hints.awaitingReplay
    ensures var c := Do(b, ListChunk(b.hints.relisting.value.todo));
            c.refreshing && c.hints.relisting.Some? && c.hints.relisting.value.todo == {} && !c.hints.awaitingReplay
  {
  }

  lemma AllTaken(c: System)
    requires c.refreshing && c.hints.relisting.Some? && c.hints.relisting.value.todo == {} && !c.hints.awaitingReplay
    ensures var d := Do(c, TakeRelisted(c.hints.relisting.value.ready.Keys));
            d.hints.relisting.None? && d.hints.lastFull && !d.hints.awaitingReplay
  {
    var ready := c.hints.relisting.value.ready;
    assert ready - ready.Keys == map[];
  }

  // ---------------------------------------------------------- the world and its journal

  /** How often a record was written. */
  function Writes(actions: seq<Action>, k: Key): nat {
    if actions == [] then 0
    else Writes(actions[..|actions| - 1], k) + if actions[|actions| - 1] == Write(k) then 1 else 0
  }

  /** What was announced, each with the version the record had then. */
  function Announced(actions: seq<Action>): seq<Entry> {
    if actions == [] then []
    else
      var before, a := actions[..|actions| - 1], actions[|actions| - 1];
      Announced(before) + if a.Announce? then [Entry(a.key, Writes(before, a.key))] else []
  }

  /** Nothing an index does touches either. */
  lemma {:induction false} WorldIsWritten(behind: bool, actions: seq<Action>, k: Key)
    ensures Ver(Run(behind, actions).world, k) == Writes(actions, k) && Run(behind, actions).journal == Announced(actions)
  {
    hide Do;
    if actions != [] {
      var n := |actions| - 1;
      var a := actions[n];
      WorldIsWritten(behind, actions[..n], k);
      if a.Announce? { WorldIsWritten(behind, actions[..n], a.key); }
      WorldStep(Run(behind, actions[..n]), a);
    }
  }

  lemma WorldStep(s: System, a: Action)
    ensures Do(s, a).world == if a.Write? then s.world[a.key := Ver(s.world, a.key) + 1] else s.world
    ensures Do(s, a).journal == if a.Announce? then s.journal + [Entry(a.key, Ver(s.world, a.key))] else s.journal
  {
    hide Ver, KeysOf, CanRead, IsBatch, Listed, Restrict, PersistableMark, DoOutside, Begun, TookRelisted, DoneReading, GaveUp,
      Restarted, Ended, ChunkListed, ChunkRefused;
    WorldEnds(s);
    if a.Write? || a.Announce? || a.Deliver? || a.ExtraHints? || a.JournalAt? || a.RequestFull? {
      IsOutside(s, a);
      WorldOutside(s, a);
    } else if a.Failed? {
      WorldFailed(s, a.relistingToo);
    } else if a.Crash? {
      WorldRestarted(s, a.resume, if a.resume && s.mark.Some? then s.mark.value else a.position);
    } else if (a.ListChunk? || a.RefuseChunk?) && s.hints.relisting.Some? {
      WorldChunk(s, a.keys);
    } else if a.Begin? {
      WorldBegun(s, a.chosen, a.live);
    } else if a.Read? {
      WorldRead(s, a);
    } else if a.TakeRelisted? && s.hints.relisting.Some? {
      WorldTook(s, a.keys);
    }
  }

  lemma WorldOutside(s: System, a: Action)
    requires a.Write? || a.Announce? || a.Deliver? || a.ExtraHints? || a.JournalAt? || a.RequestFull?
    ensures var after := DoOutside(s, a);
            && after.world == (if a.Write? then s.world[a.key := Ver(s.world, a.key) + 1] else s.world)
            && after.journal == if a.Announce? then s.journal + [Entry(a.key, Ver(s.world, a.key))] else s.journal
  {
    hide Ver, KeysOf;
  }

  lemma WorldEnds(s: System)
    ensures Ended(s).world == s.world && Ended(s).journal == s.journal
  {
  }

  lemma WorldFailed(s: System, relistingToo: bool)
    ensures GaveUp(s, relistingToo).world == s.world && GaveUp(s, relistingToo).journal == s.journal
  {
  }

  lemma WorldRestarted(s: System, resume: bool, p: nat)
    ensures Restarted(s, resume, p).world == s.world && Restarted(s, resume, p).journal == s.journal
  {
  }

  lemma WorldChunk(s: System, keys: set<Key>)
    requires s.hints.relisting.Some?
    ensures ChunkListed(s, keys).world == ChunkRefused(s, keys).world == s.world
    ensures ChunkListed(s, keys).journal == ChunkRefused(s, keys).journal == s.journal
  {
  }

  lemma WorldBegun(s: System, chosen: set<Key>, live: set<Key>)
    ensures Begun(s, chosen, live).world == s.world && Begun(s, chosen, live).journal == s.journal
  {
    hide Listed, TakenHints;
  }

  lemma WorldRead(s: System, a: Action)
    requires a.Read?
    ensures var after := DoneReading(s, a.found, a.applied, a.saved, a.kept, a.put);
            after.world == s.world && after.journal == s.journal
  {
    hide Restrict, PersistableMark, Ver;
  }

  lemma WorldTook(s: System, keys: set<Key>)
    requires s.hints.relisting.Some?
    ensures TookRelisted(s, keys).world == s.world && TookRelisted(s, keys).journal == s.journal
  {
    hide Restrict;
  }
}

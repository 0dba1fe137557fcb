/**
 Reading the change journal (`journal_reader`): a tick lists the minute partitions of a
 window behind the clock — the whole skew window every so often, else the last two
 minutes — and reports the keys not seen before; keys the window left are forgotten.

 A key is written under its own timestamp, and may be listed only later. While the
 window's start does not go back (`StartsRise`: a clock that does not) no key is
 reported twice (`NothingTwice`). A key that can be listed within the skew window less
 the rescan time of its timestamp is reported by the first rescan after that
 (`NothingMissed`), if and only if the look-back did not cut it off (`CutOff`,
 `CutOffLoses`), and so is what the first tick of a resumed reader replays
 (`ReplayReports`). Such a tick reports again what of the window lies before the cursor
 (`ResumeRepeats`), although the code's comment says the window starts there.
 */
module JournalReading {
  datatype Option<+T> = None | Some(value: T)

  datatype Key = Key(ms: nat, area: string, app: string, writer: string, seqno: nat, name: string) {
    function Scope(): (string, string) { (area, app) }
  }

  const MINUTE := 60_000

  /** The minute partition of a time. */
  function Partition(ms: int): int { ms / MINUTE }

  /** What a reader is made with, in milliseconds. */
  datatype Config = Config(skew: nat, rescan: nat, lookback: Option<nat>, maxPerScope: nat)

  /** What a reader keeps: the latest clock reading, when it last listed the whole window,
      and the keys seen, each with the time it is forgotten by. */
  datatype State = State(lastSeen: Option<int>, rescanned: Option<int>, seen: map<Key, int>)

  const FRESH := State(None, None, map[])

  /** A clock reading and the keys that can be listed then. */
  datatype Tick = Tick(now: int, keys: set<Key>)

  // ----------------------------------------------------------------------- a tick

  /** The latest reading, or now (also for a reading of 0). */
  function Latest(s: State, now: int): int {
    if s.lastSeen.Some? && s.lastSeen.value != 0 then s.lastSeen.value else now
  }

  function Min(a: int, b: int): int { if a <= b then a else b }

  function Max(a: int, b: int): int { if a >= b then a else b }

  /** The start of the window. */
  function Start(c: Config, s: State, now: int): int {
    var start := Min(Latest(s, now), now) - c.skew;
    if c.lookback.Some? then Max(start, now - c.lookback.value) else start
  }

  /** Whether a tick lists the whole window. */
  predicate Rescans(c: Config, s: State, now: int) {
    !(s.rescanned.Some? && 0 <= now - s.rescanned.value < c.rescan)
  }

  /** Where a tick lists from. */
  function ListedFrom(c: Config, s: State, now: int): int {
    if Rescans(c, s, now) then Start(c, s, now) else Max(Start(c, s, now), now - MINUTE)
  }

  /** What the partitions from a time to now list, from that time on. */
  predicate InWindow(k: Key, from: int, now: int) {
    from <= k.ms && Partition(k.ms) <= Partition(now)
  }

  function Remembered(seen: map<Key, int>, start: int): map<Key, int> {
    map k | k in seen && seen[k] >= start :: seen[k]
  }

  /** The keys a tick reports. */
  function Reported(c: Config, s: State, t: Tick): set<Key> {
    set k | k in t.keys && InWindow(k, ListedFrom(c, s, t.now), t.now)
            && k !in Remembered(s.seen, Start(c, s, t.now))
  }

  function Step(c: Config, s: State, t: Tick): State {
    State(Some(Max(Latest(s, t.now), t.now)),
          if Rescans(c, s, t.now) then Some(t.now) else s.rescanned,
          Remembered(s.seen, Start(c, s, t.now)) + map k | k in Reported(c, s, t) :: k.ms)
  }

  // ------------------------------------------------------------------------- runs

  function After(c: Config, s: State, ticks: seq<Tick>): State {
    if ticks == [] then s else Step(c, After(c, s, ticks[..|ticks| - 1]), ticks[|ticks| - 1])
  }

  /** What tick `i` reports. */
  function ReportAt(c: Config, s: State, ticks: seq<Tick>, i: nat): set<Key>
    requires i < |ticks|
  {
    Reported(c, After(c, s, ticks[..i]), ticks[i])
  }

  function StartAt(c: Config, s: State, ticks: seq<Tick>, i: nat): int
    requires i < |ticks|
  {
    Start(c, After(c, s, ticks[..i]), ticks[i].now)
  }

  ghost predicate ClockRises(ticks: seq<Tick>) {
    forall i, j :: 0 <= i < j < |ticks| ==> ticks[i].now <= ticks[j].now
  }

  /** Clock readings since the epoch. */
  ghost predicate SinceEpoch(ticks: seq<Tick>) {
    forall i :: 0 <= i < |ticks| ==> ticks[i].now > 0
  }

  /** The latest reading is that of a tick, or the cursor's. */
  lemma {:induction false} LastSeenIs(c: Config, s: State, ticks: seq<Tick>)
    requires ClockRises(ticks) && SinceEpoch(ticks) && (s.lastSeen.Some? ==> s.lastSeen.value > 0) && ticks != []
    ensures After(c, s, ticks).lastSeen
            == Some(if s.lastSeen.Some? then Max(s.lastSeen.value, ticks[|ticks| - 1].now) else ticks[|ticks| - 1].now)
  {
    var init := ticks[..|ticks| - 1];
    if init != [] {
      LastSeenIs(c, s, init);
      assert init[|init| - 1].now <= ticks[|ticks| - 1].now;
    }
  }

  /** While the clock does not go back, neither does the window's start. */
  lemma StartsRise(c: Config, s: State, ticks: seq<Tick>, i: nat, j: nat)
    requires ClockRises(ticks) && SinceEpoch(ticks) && (s.lastSeen.Some? ==> s.lastSeen.value > 0)
    requires i <= j < |ticks|
    ensures StartAt(c, s, ticks, i) <= StartAt(c, s, ticks, j)
  {
    if i > 0 {
      LastSeenIs(c, s, ticks[..i]);
    }
    if j > 0 {
      LastSeenIs(c, s, ticks[..j]);
      assert ticks[..j][|ticks[..j]| - 1] == ticks[j - 1];
    }
    assert ticks[i].now <= ticks[j].now;
    if 0 < i < j {
      assert ticks[i - 1].now <= ticks[j - 1].now;
    }
  }

  // ------------------------------------------------------------------- no key twice

  ghost predicate Rising(c: Config, s: State, ticks: seq<Tick>) {
    forall i, j :: 0 <= i <= j < |ticks| ==> StartAt(c, s, ticks, i) <= StartAt(c, s, ticks, j)
  }

  /** A key reported is remembered until the window left it. */
  lemma {:induction false} ReportedIsRemembered(c: Config, s: State, ticks: seq<Tick>, i: nat, k: Key)
    requires Rising(c, s, ticks) && i < |ticks| && k in ReportAt(c, s, ticks, i)
    ensures var after := After(c, s, ticks);
            k.ms >= StartAt(c, s, ticks, |ticks| - 1) ==> k in after.seen && after.seen[k] == k.ms
  {
    var last := |ticks| - 1;
    var init := ticks[..last];
    if i < last {
      PrefixTicks(c, s, ticks, last);
      assert ticks[..i] == init[..i];
      ReportedIsRemembered(c, s, init, i, k);
      assert init[..last - 1] == ticks[..last - 1];
      assert StartAt(c, s, init, last - 1) == StartAt(c, s, ticks, last - 1);
      assert StartAt(c, s, ticks, last - 1) <= StartAt(c, s, ticks, last);
    }
  }

  lemma PrefixTicks(c: Config, s: State, ticks: seq<Tick>, n: nat)
    requires Rising(c, s, ticks) && n <= |ticks|
    ensures Rising(c, s, ticks[..n])
  {
    forall i, j | 0 <= i <= j < n ensures StartAt(c, s, ticks[..n], i) <= StartAt(c, s, ticks[..n], j) {
      assert ticks[..n][..i] == ticks[..i] && ticks[..n][..j] == ticks[..j];
      assert StartAt(c, s, ticks, i) <= StartAt(c, s, ticks, j);
    }
  }

  /** No key is reported by two ticks. */
  lemma NothingTwice(c: Config, s: State, ticks: seq<Tick>, i: nat, j: nat)
    requires ClockRises(ticks) && SinceEpoch(ticks) && (s.lastSeen.Some? ==> s.lastSeen.value > 0)
    requires i < j < |ticks|
    ensures ReportAt(c, s, ticks, i) !! ReportAt(c, s, ticks, j)
  {
    forall a, b | 0 <= a <= b < |ticks| ensures StartAt(c, s, ticks, a) <= StartAt(c, s, ticks, b) {
      StartsRise(c, s, ticks, a, b);
    }
    forall k | k in ReportAt(c, s, ticks, i) ensures k !in ReportAt(c, s, ticks, j) {
      var before := ticks[..j];
      PrefixTicks(c, s, ticks, j);
      assert before[..i] == ticks[..i] && before[..j - 1] == ticks[..j - 1];
      ReportedIsRemembered(c, s, before, i, k);
      assert StartAt(c, s, ticks, j - 1) <= StartAt(c, s, ticks, j);
    }
  }

  // ------------------------------------------------------------------ no key missed

  predicate RescanAt(c: Config, s: State, ticks: seq<Tick>, i: nat)
    requires i < |ticks|
  {
    Rescans(c, After(c, s, ticks[..i]), ticks[i].now)
  }

  /** The last rescan so far, and how long ago it was. */
  lemma {:induction false} LastRescan(c: Config, s: State, ticks: seq<Tick>) returns (p: nat)
    requires s.rescanned.None? && ticks != []
    ensures p < |ticks| && RescanAt(c, s, ticks, p) && After(c, s, ticks).rescanned == Some(ticks[p].now)
    ensures p == |ticks| - 1 || ticks[|ticks| - 1].now < ticks[p].now + c.rescan
  {
    var last := |ticks| - 1;
    if RescanAt(c, s, ticks, last) {
      p := last;
    } else {
      var init := ticks[..last];
      p := LastRescan(c, s, init);
      assert init[..p] == ticks[..p];
    }
  }

  /** The whole window is listed no more often than it is due. */
  lemma RescansApart(c: Config, s: State, ticks: seq<Tick>, i: nat, j: nat)
    requires s.rescanned.None? && ClockRises(ticks) && i < j < |ticks| && RescanAt(c, s, ticks, i) && RescanAt(c, s, ticks, j)
    ensures ticks[j].now >= ticks[i].now + c.rescan
  {
    var before := ticks[..j];
    var p := LastRescan(c, s, before);
    assert before[..p] == ticks[..p] && before[..i] == ticks[..i];
    RescanIsLast(c, s, ticks, i, j);
  }

  lemma {:induction false} RescanIsLast(c: Config, s: State, ticks: seq<Tick>, i: nat, n: nat)
    requires ClockRises(ticks) && i < n <= |ticks| && RescanAt(c, s, ticks, i)
    ensures After(c, s, ticks[..n]).rescanned.Some? && After(c, s, ticks[..n]).rescanned.value >= ticks[i].now
    ensures exists m :: 0 <= m < n && After(c, s, ticks[..n]).rescanned == Some(ticks[m].now)
    decreases n
  {
    assert ticks[..n][..n - 1] == ticks[..n - 1];
    if i < n - 1 { RescanIsLast(c, s, ticks, i, n - 1); }
  }

  ghost predicate ReportedBefore(c: Config, s: State, ticks: seq<Tick>, n: nat, k: Key)
    requires n <= |ticks|
  {
    exists i: nat :: i < n && k in ReportAt(c, s, ticks, i)
  }

  /** A key is remembered only if it was reported, or came with the cursor. */
  lemma {:induction false} SeenWasReported(c: Config, s: State, ticks: seq<Tick>, k: Key)
    requires k in After(c, s, ticks).seen && k !in s.seen
    ensures ReportedBefore(c, s, ticks, |ticks|, k)
  {
    var last := |ticks| - 1;
    if k in ReportAt(c, s, ticks, last) {
    } else {
      var init := ticks[..last];
      SeenWasReported(c, s, init, k);
      var i: nat :| i < |init| && k in ReportAt(c, s, init, i);
      assert init[..i] == ticks[..i];
      assert k in ReportAt(c, s, ticks, i);
    }
  }

  lemma SeenBefore(c: Config, s: State, ticks: seq<Tick>, n: nat, k: Key)
    requires n <= |ticks| && k !in s.seen
    ensures k in After(c, s, ticks[..n]).seen ==> ReportedBefore(c, s, ticks, n, k)
  {
    var before := ticks[..n];
    if k in After(c, s, before).seen {
      SeenWasReported(c, s, before, k);
      var j: nat :| j < n && k in ReportAt(c, s, before, j);
      assert before[..j] == ticks[..j] && before[j] == ticks[j];
      assert k in ReportAt(c, s, ticks, j);
    }
  }

  /** The look-back keeps the key out of tick `i`'s listing. */
  predicate CutOff(c: Config, ticks: seq<Tick>, i: nat, k: Key)
    requires i < |ticks|
  {
    c.lookback.Some? && k.ms < ticks[i].now - c.lookback.value
  }

  /** A key that can be listed from `listable` on: not stamped ahead of the clock, and no
      longer after its timestamp than the skew window less the rescan time. */
  ghost predicate ListableInTime(c: Config, ticks: seq<Tick>, k: Key, listable: int) {
    && k.ms <= listable <= k.ms + c.skew - c.rescan
    && forall i :: 0 <= i < |ticks| && ticks[i].now >= listable ==> k in ticks[i].keys
  }

  /** Tick `i` is the first rescan once the key can be listed. */
  ghost predicate FirstRescanFrom(c: Config, s: State, ticks: seq<Tick>, i: nat, listable: int) {
    && i < |ticks| && ticks[i].now >= listable && RescanAt(c, s, ticks, i)
    && forall j: nat :: j < i && ticks[j].now >= listable ==> !RescanAt(c, s, ticks, j)
  }

  /** The reading a tick's window counts from: the tick's before, or at the first what the
      reader came with. */
  function ReadBefore(s: State, ticks: seq<Tick>, i: nat): int
    requires i < |ticks|
  {
    if i > 0 then ticks[i - 1].now else Latest(s, ticks[0].now)
  }

  /** The window of the first rescan reaches back to the key. */
  lemma WindowReaches(c: Config, s: State, ticks: seq<Tick>, i: nat, k: Key, listable: int)
    requires ClockRises(ticks) && SinceEpoch(ticks) && s.rescanned.None?
    requires s.lastSeen.Some? && ticks != [] ==> 0 < s.lastSeen.value <= ticks[0].now
    requires ListableInTime(c, ticks, k, listable) && FirstRescanFrom(c, s, ticks, i, listable)
    requires i == 0 ==> listable >= ReadBefore(s, ticks, 0) - c.rescan
    ensures Latest(After(c, s, ticks[..i]), ticks[i].now) == ReadBefore(s, ticks, i)
    ensures 0 < ReadBefore(s, ticks, i) <= ticks[i].now
    ensures ReadBefore(s, ticks, i) - c.skew <= k.ms
  {
    var before := ticks[..i];
    if i > 0 {
      LastSeenIs(c, s, before);
      assert ticks[0].now <= ticks[i - 1].now <= ticks[i].now;
      var p := LastRescan(c, s, before);
      assert before[..p] == ticks[..p];
      assert RescanAt(c, s, ticks, p) && ticks[p].now < listable;
    } else {
      assert before == [];
    }
  }

  /** By then the key was reported, unless the look-back cut it off. The first tick, a resumed
      reader's replay, finds what could be listed no earlier than a rescan time before the
      reading it was resumed from. */
  lemma NothingMissed(c: Config, s: State, ticks: seq<Tick>, i: nat, k: Key, listable: int)
    requires ClockRises(ticks) && SinceEpoch(ticks) && s.rescanned.None? && k !in s.seen
    requires s.lastSeen.Some? && ticks != [] ==> 0 < s.lastSeen.value <= ticks[0].now
    requires ListableInTime(c, ticks, k, listable) && FirstRescanFrom(c, s, ticks, i, listable)
    requires i == 0 ==> listable >= ReadBefore(s, ticks, 0) - c.rescan
    ensures !ReportedBefore(c, s, ticks, i, k) ==> (k in ReportAt(c, s, ticks, i) <==> !CutOff(c, ticks, i, k))
  {
    var before := ticks[..i];
    WindowReaches(c, s, ticks, i, k, listable);
    SeenBefore(c, s, ticks, i, k);
    assert Partition(k.ms) <= Partition(ticks[i].now);
  }

  /** A key of the last minute is reported by the next tick, rescan or not, that it can be listed
      at and whose window has not left it. */
  lemma RecentIsReported(c: Config, s: State, ticks: seq<Tick>, i: nat, k: Key)
    requires i < |ticks| && k in ticks[i].keys && k !in s.seen
    requires ticks[i].now - 60_000 <= k.ms <= ticks[i].now && ticks[i].now - c.skew <= k.ms && !CutOff(c, ticks, i, k)
    ensures k in ReportAt(c, s, ticks, i) || ReportedBefore(c, s, ticks, i, k)
  {
    SeenBefore(c, s, ticks, i, k);
    assert Partition(k.ms) <= Partition(ticks[i].now);
  }

  /** A tick that is no rescan reports nothing older than that. */
  lemma OnlyRecent(c: Config, s: State, ticks: seq<Tick>, i: nat, k: Key)
    requires i < |ticks| && k in ReportAt(c, s, ticks, i)
    requires var before := After(c, s, ticks[..i]);
             before.rescanned.Some? && before.rescanned.value <= ticks[i].now < before.rescanned.value + c.rescan
    ensures k.ms >= ticks[i].now - 60_000
  {
  }

  /** What the first tick of a resumed reader reports, exactly: the keys not handed over whose
      timestamp is in the skew window before the cursor's time and not cut off. */
  lemma ReplayReports(c: Config, s: State, t: Tick, k: Key)
    requires s.rescanned.None? && s.lastSeen.Some? && 0 < s.lastSeen.value <= t.now
    requires k in t.keys && k !in s.seen && k.ms <= t.now
    ensures k in Reported(c, s, t) <==> k.ms >= s.lastSeen.value - c.skew && !CutOff(c, [t], 0, k)
  {
    assert Partition(k.ms) <= Partition(t.now);
  }

  /** Such keys there are with every look-back: one listable right after its timestamp, while
      the next tick comes later than the look-back reaches. */
  lemma CutOffLoses(c: Config, k: Key) returns (ticks: seq<Tick>)
    requires c.lookback.Some? && c.lookback.value >= c.skew > c.rescan && k.ms > 0
    ensures ClockRises(ticks) && SinceEpoch(ticks) && ListableInTime(c, ticks, k, k.ms + 1)
    ensures FirstRescanFrom(c, FRESH, ticks, 1, k.ms + 1) && CutOff(c, ticks, 1, k)
    ensures k !in ReportAt(c, FRESH, ticks, 0) && k !in ReportAt(c, FRESH, ticks, 1)
  {
    ticks := [Tick(k.ms, {}), Tick(k.ms + c.lookback.value + 1, {k})];
    assert ticks[..0] == [] && ticks[..1] == [ticks[0]];
    assert ticks[..1][..0] == [];
    assert After(c, FRESH, ticks[..1]) == Step(c, FRESH, ticks[0]);
    CutOffStays(c, FRESH, ticks, 1, 1, k);
  }

  /** A key cut off is reported by no later tick either. */
  lemma CutOffStays(c: Config, s: State, ticks: seq<Tick>, i: nat, j: nat, k: Key)
    requires ClockRises(ticks) && i <= j < |ticks| && CutOff(c, ticks, i, k)
    ensures k !in ReportAt(c, s, ticks, j)
  {
    assert ticks[i].now <= ticks[j].now;
  }

  // ------------------------------------------------------------------------ resuming

  /** What a reader hands on: its latest reading and the keys seen from that time on. */
  datatype Cursor = Cursor(lastSeen: Option<int>, boundary: set<Key>)

  function CursorOf(s: State): Cursor {
    var from := if s.lastSeen.Some? then s.lastSeen.value else 0;
    Cursor(s.lastSeen, set k | k in s.seen && s.seen[k] >= from)
  }

  /** A reader resumed: the cursor's keys are forgotten by its time. */
  function Resumed(cursor: Cursor): State {
    State(cursor.lastSeen, None,
          map k | k in cursor.boundary :: if cursor.lastSeen.Some? then cursor.lastSeen.value else 0)
  }

  /** Of the keys a reader still remembered, the first tick of one resumed from its cursor
      reports again those it can list from before the cursor, and no other. */
  lemma ResumeRepeats(c: Config, s: State, t: Tick, k: Key)
    requires s.lastSeen.Some? && 0 < s.lastSeen.value <= t.now
    requires k in s.seen && s.seen[k] == k.ms && k in t.keys && c.skew > 0
    ensures k in Reported(c, Resumed(CursorOf(s)), t) <==>
              InWindow(k, Start(c, s, t.now), t.now)
              && (k.ms < s.lastSeen.value || s.lastSeen.value < Start(c, s, t.now))
  {
    var r := Resumed(CursorOf(s));
    assert Start(c, r, t.now) == Start(c, s, t.now);
    assert k in r.seen <==> k.ms >= s.lastSeen.value;
  }

  // ------------------------------------------------------------------------ the reader

  /** The reported keys by scope, the scopes with too many given by their records' names. */
  datatype TickResult = TickResult(entries: map<(string, string), seq<Key>>, overflow: map<(string, string), set<string>>)

  function OfScope(keys: seq<Key>, scope: (string, string)): seq<Key> {
    if keys == [] then []
    else
      var rest, k := OfScope(keys[..|keys| - 1], scope), keys[|keys| - 1];
      if k.Scope() == scope then rest + [k] else rest
  }

  /** A scope's keys are given in full, or the names of all of them. */
  ghost predicate ScopeRight(result: TickResult, keys: seq<Key>, max: nat, scope: (string, string)) {
    var mine := OfScope(keys, scope);
    && (scope in result.entries <==> 0 < |mine| <= max)
    && (scope in result.entries ==> result.entries[scope] == mine)
    && (scope in result.overflow <==> |mine| > max && mine != [])
    && (scope in result.overflow ==> result.overflow[scope] == set k | k in mine :: k.name)
  }

  ghost predicate GroupedAt(entries: map<(string, string), seq<Key>>, keys: seq<Key>, scope: (string, string)) {
    OfScope(keys, scope) == if scope in entries then entries[scope] else []
  }

  method Group(keys: seq<Key>, max: nat) returns (result: TickResult)
    ensures forall scope :: ScopeRight(result, keys, max, scope)
  {
    var entries: map<(string, string), seq<Key>> := map[];
    for i := 0 to |keys|
      invariant forall scope :: GroupedAt(entries, keys[..i], scope) && (scope in entries ==> entries[scope] != [])
    {
      var k := keys[i];
      ghost var was, next := entries, keys[..i + 1];
      assert next[..i] == keys[..i];
      entries := entries[k.Scope() := (if k.Scope() in entries then entries[k.Scope()] else []) + [k]];
      forall scope ensures GroupedAt(entries, next, scope) && (scope in entries ==> entries[scope] != []) {
        assert GroupedAt(was, keys[..i], scope);
      }
    }
    assert keys[..|keys|] == keys;
    var over := set scope | scope in entries && |entries[scope]| > max;
    result := TickResult(entries - over, map scope | scope in over :: set k | k in entries[scope] :: k.name);
    forall scope ensures ScopeRight(result, keys, max, scope) {
      assert GroupedAt(entries, keys, scope);
    }
  }

  ghost predicate ByTime(keys: seq<Key>) {
    forall i, j :: 0 <= i < j < |keys| ==> keys[i].ms <= keys[j].ms
  }

  ghost predicate NoRepeats(keys: seq<Key>) {
    forall i, j :: 0 <= i < j < |keys| ==> keys[i] != keys[j]
  }

  /** What the listing, less what was remembered, is. */
  lemma ListedIsReported(c: Config, s: State, t: Tick, k: Key)
    ensures k in t.keys && InWindow(k, ListedFrom(c, s, t.now), t.now) && k !in Remembered(s.seen, Start(c, s, t.now))
            <==> k in Reported(c, s, t)
  {
  }

  class JournalReader {
    const config: Config
    var lastSeen: Option<int>
    var rescanned: Option<int>
    var seen: map<Key, int>

    function State_(): State
      reads this
    {
      State(lastSeen, rescanned, seen)
    }

    constructor (config: Config, cursor: Cursor)
      ensures this.config == config && State_() == Resumed(cursor)
    {
      this.config := config;
      lastSeen, rescanned := cursor.lastSeen, None;
      seen := map k | k in cursor.boundary :: if cursor.lastSeen.Some? then cursor.lastSeen.value else 0;
    }

    /** One tick: the keys not seen before, oldest first, by scope. */
    method Tick(t: Tick) returns (found: seq<Key>, result: TickResult)
      modifies this
      ensures State_() == Step(config, old(State_()), t)
      ensures ByTime(found) && (forall k :: k in found <==> k in Reported(config, old(State_()), t))
      ensures NoRepeats(found)
      ensures forall scope :: ScopeRight(result, found, config.maxPerScope, scope)
    {
      hide Reported, InWindow, Remembered, Start, ScopeRight, ByTime, NoRepeats;
      ghost var s := State_();
      var start := Start(config, State_(), t.now);
      seen := Remembered(seen, start);
      var from := ListFrom(start, t.now);
      found := NewKeys(t.keys, from, t.now);
      result := Group(found, config.maxPerScope);
      lastSeen := Some(Max(if lastSeen.Some? && lastSeen.value != 0 then lastSeen.value else t.now, t.now));
      forall k ensures k in found <==> k in Reported(config, s, t) {
        ListedIsReported(config, s, t, k);
      }
      assert seen == Remembered(s.seen, start) + map k | k in Reported(config, s, t) :: k.ms;
    }

    /** The window's start when a rescan is due, else the start of the last two minutes. */
    method ListFrom(start: int, now: int) returns (from: int)
      modifies this`rescanned
      ensures rescanned == if Rescans(config, old(State_()), now) then Some(now) else old(rescanned)
      ensures from == if Rescans(config, old(State_()), now) then start else Max(start, now - MINUTE)
    {
      if rescanned.Some? && 0 <= now - rescanned.value < config.rescan {
        return Max(start, now - MINUTE);
      }
      rescanned := Some(now);
      return start;
    }

    /** The listed keys not seen, noted as seen, oldest first. */
    method NewKeys(keys: set<Key>, from: int, now: int) returns (found: seq<Key>)
      modifies this`seen
      ensures seen == old(seen) + map k | k in keys && InWindow(k, from, now) && k !in old(seen) :: k.ms
      ensures ByTime(found) && NoRepeats(found)
      ensures forall k :: k in found <==> k in keys && InWindow(k, from, now) && k !in old(seen)
    {
      found := [];
      var left := keys;
      while left != {}
        invariant left <= keys && ByTime(found) && NoRepeats(found)
        invariant forall k :: k in found <==> k in keys - left && InWindow(k, from, now) && k !in old(seen)
        invariant seen == old(seen) + map k | k in keys - left && InWindow(k, from, now) && k !in old(seen) :: k.ms
        decreases left
      {
        var k :| k in left;
        left := left - {k};
        if InWindow(k, from, now) && k !in seen {
          seen := seen[k := k.ms];
          found := InsertByTime(found, k);
        }
      }
    }
  }

  /** A key put among others in time order. */
  method InsertByTime(keys: seq<Key>, k: Key) returns (more: seq<Key>)
    requires ByTime(keys) && k !in keys && NoRepeats(keys)
    ensures ByTime(more) && NoRepeats(more)
    ensures forall x :: x in more <==> x in keys || x == k
  {
    var at := |keys|;
    while at > 0 && keys[at - 1].ms > k.ms
      invariant 0 <= at <= |keys| && forall i :: at <= i < |keys| ==> keys[i].ms > k.ms
    {
      at := at - 1;
    }
    more := keys[..at] + [k] + keys[at..];
    Inserted(keys, k, at);
  }

  function Between(keys: seq<Key>, k: Key, at: nat, i: nat): Key
    requires at <= |keys| && i <= |keys|
  {
    if i < at then keys[i] else if i == at then k else keys[i - 1]
  }

  lemma Inserted(keys: seq<Key>, k: Key, at: nat)
    requires ByTime(keys) && k !in keys && NoRepeats(keys) && at <= |keys|
    requires (forall i :: at <= i < |keys| ==> keys[i].ms > k.ms) && (at > 0 ==> keys[at - 1].ms <= k.ms)
    ensures var more := keys[..at] + [k] + keys[at..];
            ByTime(more) && NoRepeats(more) && forall x :: x in more <==> x in keys || x == k
  {
    var more := keys[..at] + [k] + keys[at..];
    assert forall i :: 0 <= i < |more| ==> more[i] == Between(keys, k, at, i);
    InsertedByTime(keys, k, at, more);
    InsertedOnce(keys, k, at, more);
    assert keys == keys[..at] + keys[at..];
  }

  lemma InsertedByTime(keys: seq<Key>, k: Key, at: nat, more: seq<Key>)
    requires ByTime(keys) && at <= |keys| && |more| == |keys| + 1
    requires (forall i :: at <= i < |keys| ==> keys[i].ms > k.ms) && (at > 0 ==> keys[at - 1].ms <= k.ms)
    requires forall i :: 0 <= i < |more| ==> more[i] == Between(keys, k, at, i)
    ensures ByTime(more)
  {
    forall i, j | 0 <= i < j < |more| ensures more[i].ms <= more[j].ms {
      assert more[i] == Between(keys, k, at, i) && more[j] == Between(keys, k, at, j);
      assert i < at ==> keys[i].ms <= keys[at - 1].ms;
    }
  }

  lemma InsertedOnce(keys: seq<Key>, k: Key, at: nat, more: seq<Key>)
    requires NoRepeats(keys) && k !in keys && at <= |keys| && |more| == |keys| + 1
    requires forall i :: 0 <= i < |more| ==> more[i] == Between(keys, k, at, i)
    ensures NoRepeats(more)
  {
    forall i, j | 0 <= i < j < |more| ensures more[i] != more[j] {
      assert more[i] == Between(keys, k, at, i) && more[j] == Between(keys, k, at, j);
    }
  }
}

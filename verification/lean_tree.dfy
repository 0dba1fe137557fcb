/**
 The `root` column of the lean rows (`index_lean_tree`): each run's topmost ancestor over
 the stored parent links. A missing parent ends a chain and is its root; a cycle is
 climbed once round; a run with no parent has no root.

 A save re-derives the roots of the runs whose parent link appeared, moved or went and
 of those below them. `FixedIsRight`: if every root was right before the save, every root
 is right after, although nothing else was visited; `LocalIsBulk`: the one scan of a large
 save leaves the same rows. Runs are named by verstr, which no two rows share and a row
 keeps.
 */
module LeanTree {
  type Verstr = string

  datatype Option<+T> = None | Some(value: T)

  /** A run's stored links. */
  datatype Row = Row(parent: Option<Verstr>, root: Option<Verstr>)

  type Rows = map<Verstr, Row>

  /** Whether `u` is recorded as the parent of run `v`. */
  predicate HasParent(rows: Rows, v: Verstr, u: Verstr) { v in rows && rows[v].parent == Some(u) }

  function ParentOf(rows: Rows, v: Verstr): Option<Verstr> {
    if v in rows then rows[v].parent else None
  }

  // ---------------------------------------------------------------- ancestors

  /** The chain from `cursor` up, stopping at what was seen. */
  function Climb(rows: Rows, cursor: Option<Verstr>, seen: set<Verstr>): seq<Verstr>
    decreases rows.Keys - seen
  {
    if cursor.None? || cursor.value in seen then []
    else if cursor.value !in rows then [cursor.value]
    else [cursor.value] + Climb(rows, rows[cursor.value].parent, seen + {cursor.value})
  }

  /** A run's parent chain, nearest first. */
  function Ancestors(rows: Rows, v: Verstr): seq<Verstr> { Climb(rows, ParentOf(rows, v), {v}) }

  function RootOf(rows: Rows, v: Verstr): Option<Verstr> {
    var chain := Ancestors(rows, v);
    if chain == [] then None else Some(chain[|chain| - 1])
  }

  /** The `n`-th run up from `v`, itself the 0th. */
  function Up(rows: Rows, v: Verstr, n: nat): Option<Verstr> {
    if n == 0 then Some(v)
    else
      var below := Up(rows, v, n - 1);
      if below.None? then None else ParentOf(rows, below.value)
  }

  /** Some run at or above `v` is among `vs`. */
  ghost predicate Under(rows: Rows, vs: set<Verstr>, v: Verstr) {
    exists n: nat :: Up(rows, v, n).Some? && Up(rows, v, n).value in vs
  }

  /** One step up first, or last. */
  lemma {:induction false} UpFromParent(rows: Rows, v: Verstr, u: Verstr, n: nat)
    requires ParentOf(rows, v) == Some(u)
    ensures Up(rows, v, n + 1) == Up(rows, u, n)
  {
    if n == 0 {
      assert Up(rows, v, 0) == Some(v);
    } else {
      UpFromParent(rows, v, u, n - 1);
    }
  }

  /** What a climb passes is above where it began. */
  lemma {:induction false} ClimbIsUp(rows: Rows, v: Verstr, n: nat, seen: set<Verstr>, i: nat)
    requires i < |Climb(rows, Up(rows, v, n), seen)|
    ensures Up(rows, v, n + i) == Some(Climb(rows, Up(rows, v, n), seen)[i])
    decreases i
  {
    var cursor := Up(rows, v, n);
    if i > 0 {
      assert Up(rows, v, n + 1) == rows[cursor.value].parent;
      ClimbIsUp(rows, v, n + 1, seen + {cursor.value}, i - 1);
    }
  }

  /** A climb leaves nothing above what it passed out. */
  lemma {:induction false} ClimbIsClosed(rows: Rows, cursor: Option<Verstr>, seen: set<Verstr>)
    ensures var chain := Climb(rows, cursor, seen);
            && (cursor.Some? ==> cursor.value in seen || cursor.value in chain)
            && forall x :: x in chain && ParentOf(rows, x).Some? ==>
                 ParentOf(rows, x).value in seen || ParentOf(rows, x).value in chain
    decreases rows.Keys - seen
  {
    if cursor.Some? && cursor.value !in seen && cursor.value in rows {
      ClimbIsClosed(rows, rows[cursor.value].parent, seen + {cursor.value});
    }
  }

  /** The chain is exactly what is above. */
  lemma {:induction false} AncestorsAreAbove(rows: Rows, v: Verstr, u: Verstr)
    ensures u == v || u in Ancestors(rows, v) <==> exists n: nat :: Up(rows, v, n) == Some(u)
  {
    assert Up(rows, v, 0) == Some(v);
    assert Up(rows, v, 1) == ParentOf(rows, v);
    if u in Ancestors(rows, v) {
      var i: nat :| i < |Ancestors(rows, v)| && Ancestors(rows, v)[i] == u;
      ClimbIsUp(rows, v, 1, {v}, i);
    }
    if n: nat :| Up(rows, v, n) == Some(u) {
      AboveInChain(rows, v, n);
    }
  }

  lemma {:induction false} AboveInChain(rows: Rows, v: Verstr, n: nat)
    requires Up(rows, v, n).Some?
    ensures var u := Up(rows, v, n).value; u == v || u in Ancestors(rows, v)
  {
    ClimbIsClosed(rows, ParentOf(rows, v), {v});
    if n > 0 {
      AboveInChain(rows, v, n - 1);
    }
  }

  /** A root is the top: nothing is above it, or all above it was passed already. None
      means no parent, or a run its own parent. */
  lemma RootIsTop(rows: Rows, v: Verstr)
    ensures RootOf(rows, v).None? <==> ParentOf(rows, v).None? || ParentOf(rows, v) == Some(v)
    ensures RootOf(rows, v).Some? ==>
      var r := RootOf(rows, v).value;
      && r != v && (exists n: nat :: Up(rows, v, n) == Some(r))
      && (ParentOf(rows, r).Some? ==> exists n: nat :: n <= |Ancestors(rows, v)| && Up(rows, v, n) == ParentOf(rows, r))
  {
    var chain := Ancestors(rows, v);
    if chain != [] {
      var last := |chain| - 1;
      assert Up(rows, v, 1) == ParentOf(rows, v);
      ClimbIsUp(rows, v, 1, {v}, last);
      ClimbEnds(rows, ParentOf(rows, v), {v});
      var r := chain[last];
      if ParentOf(rows, r).Some? {
        var p := ParentOf(rows, r).value;
        if p == v {
          assert Up(rows, v, 0) == Some(p);
        } else {
          var i: nat :| i <= last && chain[i] == p;
          ClimbIsUp(rows, v, 1, {v}, i);
        }
      }
    }
  }

  /** A climb ends where nothing new is above, never at what was seen. */
  lemma {:induction false} ClimbEnds(rows: Rows, cursor: Option<Verstr>, seen: set<Verstr>)
    ensures var chain := Climb(rows, cursor, seen);
            chain != [] ==>
              && chain[|chain| - 1] !in seen
              && var p := ParentOf(rows, chain[|chain| - 1]);
                 p.Some? ==> p.value in seen || p.value in chain
    decreases rows.Keys - seen
  {
    if cursor.Some? && cursor.value !in seen && cursor.value in rows {
      var rest := Climb(rows, rows[cursor.value].parent, seen + {cursor.value});
      ClimbEnds(rows, rows[cursor.value].parent, seen + {cursor.value});
      assert rest == [] ==> rows[cursor.value].parent.Some? ==> rows[cursor.value].parent.value in seen + {cursor.value};
    }
  }

  // ------------------------------------------------------------- local repair

  /** Every stored root is the topmost ancestor. */
  ghost predicate Right(rows: Rows) {
    forall v :: v in rows ==> rows[v].root == RootOf(rows, v)
  }

  /** The rows with the roots of those among `vs` derived again. */
  function Fixed(rows: Rows, vs: set<Verstr>): Rows {
    map v | v in rows :: if v in vs then rows[v].(root := RootOf(rows, v)) else rows[v]
  }

  /** Just the rows given get another root, their topmost ancestor, and no row another column. */
  lemma FixedJustThose(rows: Rows, vs: set<Verstr>, v: Verstr)
    ensures v in Fixed(rows, vs) <==> v in rows
    ensures v in rows ==>
              var row := Fixed(rows, vs)[v];
              && (v in vs ==> row.root == RootOf(rows, v)) && (v !in vs ==> row == rows[v])
              && row == rows[v].(root := row.root)
  {
  }

  ghost predicate SameAt(before: Rows, after: Rows, v: Verstr) {
    if v in after then v in before && after[v] == before[v] else v !in before
  }

  ghost predicate SameBut(before: Rows, after: Rows, changed: set<Verstr>) {
    forall v :: v !in changed ==> SameAt(before, after, v)
  }

  ghost predicate SameLink(a: Rows, b: Rows, v: Verstr) {
    (v in a <==> v in b) && ParentOf(a, v) == ParentOf(b, v)
  }

  /** A climb over links that did not change is the climb it was. */
  lemma {:induction false} SameClimb(a: Rows, b: Rows, cursor: Option<Verstr>, seen: set<Verstr>)
    requires forall x :: x in Climb(b, cursor, seen) ==> SameLink(a, b, x)
    ensures Climb(a, cursor, seen) == Climb(b, cursor, seen)
    decreases b.Keys - seen
  {
    if cursor.Some? && cursor.value !in seen {
      assert cursor.value in Climb(b, cursor, seen);
      assert SameLink(a, b, cursor.value);
      if cursor.value in b {
        SameClimb(a, b, b[cursor.value].parent, seen + {cursor.value});
      }
    }
  }

  /** A run nothing changed at or above has the root it had. */
  lemma UntouchedRoot(before: Rows, after: Rows, changed: set<Verstr>, v: Verstr)
    requires SameBut(before, after, changed) && !Under(after, changed, v)
    ensures RootOf(before, v) == RootOf(after, v)
  {
    assert Up(after, v, 0) == Some(v);
    assert SameAt(before, after, v);
    forall x | x in Ancestors(after, v) ensures SameLink(before, after, x) {
      AncestorsAreAbove(after, v, x);
      assert SameAt(before, after, x);
    }
    SameClimb(before, after, ParentOf(after, v), {v});
  }

  /** Roots do not depend on the root column. */
  lemma FixedKeepsRoots(rows: Rows, vs: set<Verstr>, v: Verstr)
    ensures RootOf(Fixed(rows, vs), v) == RootOf(rows, v)
  {
    SameClimb(Fixed(rows, vs), rows, ParentOf(rows, v), {v});
  }

  /** Every root is right again once those at or below a change are derived again. */
  lemma FixedIsRight(before: Rows, after: Rows, changed: set<Verstr>, visited: set<Verstr>)
    requires Right(before) && SameBut(before, after, changed)
    requires forall v :: v in after && Under(after, changed, v) ==> v in visited
    ensures Right(Fixed(after, visited))
  {
    forall v | v in after ensures Fixed(after, visited)[v].root == RootOf(Fixed(after, visited), v) {
      FixedKeepsRoots(after, visited, v);
      if v !in visited {
        UntouchedRoot(before, after, changed, v);
        assert Up(after, v, 0) == Some(v);
        assert SameAt(before, after, v);
      }
    }
  }

  /** The local repair leaves the rows the scan of all of them leaves. */
  lemma LocalIsBulk(before: Rows, after: Rows, changed: set<Verstr>, visited: set<Verstr>)
    requires Right(before) && SameBut(before, after, changed)
    requires forall v :: v in after && Under(after, changed, v) ==> v in visited
    ensures Fixed(after, visited) == Fixed(after, after.Keys)
  {
    forall v | v in after && v !in visited ensures after[v].root == RootOf(after, v) {
      UntouchedRoot(before, after, changed, v);
      assert Up(after, v, 0) == Some(v);
      assert SameAt(before, after, v);
    }
  }

  // ----------------------------------------------------------- what a save moves

  /** The rows after deleting those of `gone` and upserting `runs` (their parents): a new
      row has no root yet, an existing one keeps its own. */
  function Upserted(rows: Rows, runs: map<Verstr, Option<Verstr>>, gone: set<Verstr>): Rows {
    (rows - gone) + map v | v in runs ::
      Row(runs[v], if v in rows && v !in gone then rows[v].root else None)
  }

  /** The runs whose parent link appeared, moved or went. */
  function Moved(rows: Rows, runs: map<Verstr, Option<Verstr>>, gone: set<Verstr>): set<Verstr> {
    (set v | v in runs && !(v in rows && rows[v].parent == runs[v])) + (set v | v in gone && v in rows)
  }

  lemma NothingChanged(before: Rows, after: Rows)
    requires SameBut(before, after, {})
    ensures before == after
  {
    forall v ensures v in after <==> v in before {
      assert SameAt(before, after, v);
    }
    forall v | v in after ensures after[v] == before[v] {
      assert SameAt(before, after, v);
    }
  }

  lemma MovedIsEnough(rows: Rows, runs: map<Verstr, Option<Verstr>>, gone: set<Verstr>)
    ensures SameBut(rows, Upserted(rows, runs, gone), Moved(rows, runs, gone))
  {
  }

  // ------------------------------------------------------------------ the walks

  function Among(vs: seq<Verstr>): set<Verstr> { set v | v in vs }

  /** `out` has what is in `rows` and `seen`, once each. */
  ghost predicate Lists(out: seq<Verstr>, rows: Rows, seen: set<Verstr>) {
    && (forall v :: v in out <==> v in rows && v in seen)
    && (forall i, j :: 0 <= i < j < |out| ==> out[i] != out[j])
  }

  /** The links below what was seen lead to what was seen or waits. */
  ghost predicate Covered(rows: Rows, seen: set<Verstr>, stack: seq<Verstr>) {
    forall u, c :: u in seen && HasParent(rows, c, u) ==> c in seen || c in stack
  }

  /** What a walk down from `vs` leaves nothing out of. */
  lemma {:induction false} ClosedHoldsUnder(rows: Rows, vs: set<Verstr>, seen: set<Verstr>, v: Verstr, n: nat)
    requires vs <= seen && Covered(rows, seen, [])
    requires Up(rows, v, n).Some? && Up(rows, v, n).value in vs
    ensures v in seen
    decreases n
  {
    if n == 0 {
      assert Up(rows, v, 0) == Some(v);
    } else {
      assert ParentOf(rows, v).Some? by {
        if ParentOf(rows, v).None? {
          NothingAbove(rows, v, n);
        }
      }
      var p := ParentOf(rows, v).value;
      UpFromParent(rows, v, p, n - 1);
      ClosedHoldsUnder(rows, vs, seen, p, n - 1);
      assert HasParent(rows, v, p);
    }
  }

  lemma {:induction false} NothingAbove(rows: Rows, v: Verstr, n: nat)
    requires ParentOf(rows, v).None? && n > 0
    ensures Up(rows, v, n).None?
  {
    if n > 1 {
      NothingAbove(rows, v, n - 1);
    } else {
      assert Up(rows, v, 0) == Some(v);
    }
  }

  lemma ChildIsUnder(rows: Rows, vs: set<Verstr>, u: Verstr, c: Verstr)
    requires Under(rows, vs, u) && HasParent(rows, c, u)
    ensures Under(rows, vs, c)
  {
    var n: nat :| Up(rows, u, n).Some? && Up(rows, u, n).value in vs;
    UpFromParent(rows, c, u, n);
  }

  /** What waits to be walked is under `vs`, and known. */
  ghost predicate Waits(rows: Rows, vs: set<Verstr>, stack: seq<Verstr>) {
    forall v :: v in stack ==> Under(rows, vs, v) && v in rows.Keys + vs
  }

  /** A run taken off the stack, its children put on. */
  lemma Expanded(rows: Rows, vs: set<Verstr>, seen: set<Verstr>, stack: seq<Verstr>, v: Verstr, children: seq<Verstr>)
    requires Covered(rows, seen, stack + [v]) && Waits(rows, vs, stack + [v])
    requires forall c :: c in children <==> HasParent(rows, c, v)
    ensures Covered(rows, seen + {v}, stack + children) && Waits(rows, vs, stack + children)
  {
    assert v in stack + [v];
    forall c | c in children ensures Under(rows, vs, c) && c in rows {
      ChildIsUnder(rows, vs, v, c);
    }
    forall u, c | u in seen + {v} && HasParent(rows, c, u) ensures c in seen + {v} || c in stack + children {
      if u in seen {
        assert c in seen || c in stack + [v];
      }
    }
  }

  /** The runs a parent link to `u` is stored for, in some order. */
  method ChildrenOf(rows: Rows, u: Verstr) returns (out: seq<Verstr>)
    ensures forall c :: c in out <==> HasParent(rows, c, u)
  {
    out := [];
    var left := rows.Keys;
    while left != {}
      invariant left <= rows.Keys
      invariant forall c :: c in out <==> HasParent(rows, c, u) && c !in left
      decreases left
    {
      var c :| c in left;
      left := left - {c};
      if HasParent(rows, c, u) {
        out := out + [c];
      }
    }
  }

  /** A run's parent chain. */
  method Chain(rows: Rows, v: Verstr) returns (chain: seq<Verstr>)
    ensures chain == Ancestors(rows, v)
  {
    chain := [];
    var seen, cursor := {v}, ParentOf(rows, v);
    while cursor.Some? && cursor.value !in seen
      invariant Ancestors(rows, v) == chain + Climb(rows, cursor, seen)
      decreases rows.Keys - seen, cursor.Some?
    {
      var above := ParentOf(rows, cursor.value);
      assert cursor.value !in rows ==> above == None;
      chain := chain + [cursor.value];
      seen := seen + {cursor.value};
      cursor := above;
    }
  }

  /** The present runs among `vs` and every run under them. */
  method Below(rows: Rows, vs: seq<Verstr>) returns (out: seq<Verstr>)
    ensures forall v :: v in out <==> v in rows && Under(rows, Among(vs), v)
    ensures forall i, j :: 0 <= i < j < |out| ==> out[i] != out[j]
  {
    ghost var all := Among(vs);
    var seen: set<Verstr>, stack := {}, vs;
    out := [];
    forall v | v in vs ensures Under(rows, all, v) {
      assert Up(rows, v, 0) == Some(v);
    }
    while stack != []
      invariant Lists(out, rows, seen) && seen <= rows.Keys + all
      invariant Waits(rows, all, stack) && Covered(rows, seen, stack)
      invariant forall v :: v in seen ==> Under(rows, all, v)
      invariant forall v :: v in vs ==> v in seen || v in stack
      decreases rows.Keys + all - seen, |stack|
    {
      var v := stack[|stack| - 1];
      assert stack == stack[..|stack| - 1] + [v];
      stack := stack[..|stack| - 1];
      if v in seen {
        continue;
      }
      if v in rows {
        out := out + [v];
      }
      var children := ChildrenOf(rows, v);
      Expanded(rows, all, seen, stack, v, children);
      seen := seen + {v};
      stack := stack + children;
    }
    forall v | v in rows && Under(rows, all, v) ensures v in out {
      var n: nat :| Up(rows, v, n).Some? && Up(rows, v, n).value in all;
      ClosedHoldsUnder(rows, all, seen, v, n);
    }
  }

  // -------------------------------------------------------------- the lean rows

  const BULK := 500

  class LeanRows {
    var rows: Rows

    constructor ()
      ensures rows == map[] && Right(rows)
    {
      rows := map[];
    }

    /** A save's rows, then the roots its moved links lead to. */
    method WriteLean(runs: map<Verstr, Option<Verstr>>, gone: set<Verstr>)
      requires Right(rows)
      modifies this
      ensures Right(rows)
      ensures rows == Fixed(Upserted(old(rows), runs, gone), rows.Keys)
    {
      ghost var before := rows;
      var moved := Moved(rows, runs, gone);
      rows := Upserted(rows, runs, gone);
      MovedIsEnough(before, runs, gone);
      var vs := Listed(moved);
      FixRoots(vs, before);
    }

    /** Derives the roots of `vs` and of every run below them again. */
    method FixRoots(vs: seq<Verstr>, ghost before: Rows)
      requires Right(before) && SameBut(before, rows, Among(vs))
      modifies this
      ensures Right(rows) && rows == Fixed(old(rows), old(rows).Keys)
    {
      ghost var changed := Among(vs);
      FixedIsRight(before, rows, changed, rows.Keys);
      if vs == [] {
        assert changed == {};
        NothingChanged(before, rows);
        return;
      }
      if |vs| > BULK {
        FixAll();
        return;
      }
      var visited := Below(rows, vs);
      LocalIsBulk(before, rows, changed, Among(visited));
      Fix(visited);
    }

    method FixAll()
      modifies this
      ensures rows == Fixed(old(rows), old(rows).Keys)
    {
      var all := Listed(rows.Keys);
      assert Among(all) == rows.Keys;
      Fix(all);
    }

    /** Derives the roots of `vs` and updates the rows whose stored one differs. */
    method Fix(vs: seq<Verstr>)
      requires forall v :: v in vs ==> v in rows
      modifies this
      ensures rows == Fixed(old(rows), Among(vs))
    {
      var updates: map<Verstr, Option<Verstr>> := map[];
      for i := 0 to |vs|
        invariant forall v :: v in updates <==> v in vs[..i] && v in rows && rows[v].root != RootOf(rows, v)
        invariant forall v :: v in updates ==> updates[v] == RootOf(rows, v)
        invariant rows == old(rows)
      {
        var chain := Chain(rows, vs[i]);
        var root := if chain == [] then None else Some(chain[|chain| - 1]);
        if root != rows[vs[i]].root {
          updates := updates[vs[i] := root];
        }
      }
      assert vs[..|vs|] == vs;
      rows := map v | v in rows :: if v in updates then rows[v].(root := updates[v]) else rows[v];
    }

    static method Listed(vs: set<Verstr>) returns (out: seq<Verstr>)
      ensures forall v :: v in out <==> v in vs
    {
      out := [];
      var left := vs;
      while left != {}
        invariant left <= vs && forall v :: v in out <==> v in vs && v !in left
        decreases left
      {
        var v :| v in left;
        left := left - {v};
        out := out + [v];
      }
    }
  }
}

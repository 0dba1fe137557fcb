/**
 How many runs declare which goal for a metric (`goal_counts`), kept as declarations move
 instead of counted again.

 `IsRecount` is the recount over all declarations (`metric_schema.goal_counts`): for each
 name and goal the number of runs declaring it, names and goals nobody declares left
 out. `GoalCounts.Move` keeps it, whatever one run's declaration moves from and to.
 */
module GoalCounting {
  datatype Option<+T> = None | Some(value: T)

  /** A run's declared fields by metric name; `goal` is one of them, if declared. */
  datatype Fields = Fields(goal: Option<string>, rest: string)

  type Declared = map<string, Fields>

  type Goals = map<string, string>

  type Counts = map<string, map<string, int>>

  /** The goals among a run's declared fields. */
  function RunGoals(declared: Declared): Goals {
    map n | n in declared && declared[n].goal.Some? :: declared[n].goal.value
  }

  /** The runs of `all` declaring a goal for a name. */
  function Declaring(all: map<string, Declared>, name: string, goal: string): set<string> {
    set v | v in all && Declares(all[v], name, goal)
  }

  predicate Declares(declared: Declared, name: string, goal: string) {
    name in declared && declared[name].goal == Some(goal)
  }

  function CountAt(counts: Counts, name: string, goal: string): int {
    if name in counts && goal in counts[name] then counts[name][goal] else 0
  }

  /** No name without goals, no goal nobody declares. */
  ghost predicate Sparse(counts: Counts) {
    && (forall name :: name in counts ==> counts[name] != map[])
    && (forall name, goal :: name in counts && goal in counts[name] ==> counts[name][goal] != 0)
  }

  ghost predicate CountsDeclaring(counts: Counts, all: map<string, Declared>, name: string, goal: string) {
    CountAt(counts, name, goal) == |Declaring(all, name, goal)|
  }

  /** The counts are those of counting all declarations anew. */
  ghost predicate IsRecount(counts: Counts, all: map<string, Declared>) {
    Sparse(counts) && forall name, goal :: CountsDeclaring(counts, all, name, goal)
  }

  /** Counting anew gives one result. */
  lemma RecountIsOne(a: Counts, b: Counts, all: map<string, Declared>)
    requires IsRecount(a, all) && IsRecount(b, all)
    ensures a == b
  {
    forall name, goal ensures CountAt(a, name, goal) == CountAt(b, name, goal) {
      assert CountsDeclaring(a, all, name, goal) && CountsDeclaring(b, all, name, goal);
    }
    SameCounts(a, b);
  }

  lemma SameCounts(a: Counts, b: Counts)
    requires Sparse(a) && Sparse(b) && forall name, goal :: CountAt(a, name, goal) == CountAt(b, name, goal)
    ensures a == b
  {
    forall name | name in a ensures name in b && a[name] == b[name] {
      var goal :| goal in a[name];
      assert CountAt(a, name, goal) == CountAt(b, name, goal);
      forall g ensures g in a[name] <==> g in b[name] {
        assert CountAt(a, name, g) == CountAt(b, name, g);
      }
      forall g | g in a[name] ensures a[name][g] == b[name][g] {
        assert CountAt(a, name, g) == CountAt(b, name, g);
      }
    }
    forall name | name in b ensures name in a {
      var goal :| goal in b[name];
      assert CountAt(a, name, goal) == CountAt(b, name, goal);
    }
  }

  /** The declarations with one run's moved; an empty one is none. */
  function Moved(all: map<string, Declared>, v: string, declared: Declared): map<string, Declared> {
    if declared == map[] then all - {v} else all[v := declared]
  }

  function DeclaredOf(all: map<string, Declared>, v: string): Declared { if v in all then all[v] else map[] }

  function One(goals: Goals, name: string, goal: string): int {
    if name in goals && goals[name] == goal then 1 else 0
  }

  /** A count moves by what the run's declarations say. */
  lemma CountMoves(all: map<string, Declared>, v: string, declared: Declared, name: string, goal: string)
    ensures |Declaring(Moved(all, v, declared), name, goal)|
            == |Declaring(all, name, goal)| - One(RunGoals(DeclaredOf(all, v)), name, goal)
               + One(RunGoals(declared), name, goal)
  {
    hide *;
    var was, now := Declaring(all, name, goal), Declaring(Moved(all, v, declared), name, goal);
    OneDeclares(DeclaredOf(all, v), name, goal);
    OneDeclares(declared, name, goal);
    OneOfSet(was, v);
    OneOfSet(now, v);
    OthersStay(all, v, declared, name, goal);
  }

  lemma OneDeclares(declared: Declared, name: string, goal: string)
    ensures One(RunGoals(declared), name, goal) == if Declares(declared, name, goal) then 1 else 0
    ensures declared == map[] ==> !Declares(declared, name, goal)
  {
  }

  lemma OthersStay(all: map<string, Declared>, v: string, declared: Declared, name: string, goal: string)
    ensures Declaring(all, name, goal) - {v} == Declaring(Moved(all, v, declared), name, goal) - {v}
    ensures v in Declaring(all, name, goal) <==> Declares(DeclaredOf(all, v), name, goal)
    ensures v in Declaring(Moved(all, v, declared), name, goal) <==> Declares(declared, name, goal)
  {
    OneDeclares(DeclaredOf(all, v), name, goal);
    OneDeclares(declared, name, goal);
    hide Declares;
    assert v !in all ==> DeclaredOf(all, v) == map[];
    assert declared == map[] ==> v !in Moved(all, v, declared);
  }

  lemma OneOfSet(s: set<string>, v: string)
    ensures |s| == |s - {v}| + if v in s then 1 else 0
  {
    assert s == if v in s then (s - {v}) + {v} else s - {v};
  }

  lemma NobodyDeclares()
    ensures IsRecount(map[], map[])
  {
    forall name, goal ensures CountsDeclaring(map[], map[], name, goal) {
      assert Declaring(map[], name, goal) == {};
    }
  }

  class GoalCounts {
    var counts: Counts
    /** What `Shared` handed out, until the counts move. */
    var shared: Option<Counts>

    ghost predicate Valid()
      reads this
    {
      Sparse(counts) && (shared.Some? ==> shared.value == counts)
    }

    constructor ()
      ensures Valid() && counts == map[] && IsRecount(counts, map[])
    {
      counts, shared := map[], Some(map[]);
      new;
      NobodyDeclares();
    }

    /** One more or one less run declares a goal. */
    method Add(name: string, goal: string, n: int)
      requires Sparse(counts)
      modifies this`counts
      ensures Sparse(counts)
      ensures CountAt(counts, name, goal) == CountAt(old(counts), name, goal) + n
      ensures forall a, b :: (a != name || b != goal) ==> CountAt(counts, a, b) == CountAt(old(counts), a, b)
    {
      var mine := if name in counts then counts[name] else map[];
      mine := mine[goal := (if goal in mine then mine[goal] else 0) + n];
      if mine[goal] == 0 {
        mine := mine - {goal};
      }
      assert forall b :: b != goal && b in mine ==> mine[b] == CountAt(counts, name, b);
      assert forall b :: b != goal && b !in mine ==> CountAt(counts, name, b) == 0;
      counts := if mine != map[] then counts[name := mine] else counts - {name};
    }

    /** Adds `n` to the count of each of the goals. */
    method AddAll(goals: Goals, n: int)
      requires Sparse(counts)
      modifies this`counts
      ensures Sparse(counts)
      ensures forall a, b :: CountedAll(old(counts), counts, goals, n, a, b)
    {
      var left := goals.Keys;
      while left != {}
        invariant left <= goals.Keys && Sparse(counts)
        invariant forall a, b :: CountedSome(old(counts), counts, goals, left, n, a, b)
        decreases left
      {
        var name :| name in left;
        ghost var was, before := counts, left;
        Add(name, goals[name], n);
        left := left - {name};
        forall a, b ensures CountedSome(old(counts), counts, goals, left, n, a, b) {
          assert CountedSome(old(counts), was, goals, before, n, a, b);
        }
      }
      forall a, b ensures CountedAll(old(counts), counts, goals, n, a, b) {
        assert CountedSome(old(counts), counts, goals, {}, n, a, b);
      }
    }

    static ghost predicate CountedAll(was: Counts, now: Counts, goals: Goals, n: int, a: string, b: string) {
      CountAt(now, a, b) == CountAt(was, a, b) + n * One(goals, a, b)
    }

    static ghost predicate CountedSome(was: Counts, now: Counts, goals: Goals, left: set<string>, n: int, a: string, b: string) {
      CountAt(now, a, b) == CountAt(was, a, b) + if a !in left then n * One(goals, a, b) else 0
    }

    /** Run `v`'s declaration went from what it is in `all` to `to`. */
    method Move(from: Declared, to: Declared, ghost all: map<string, Declared>, ghost v: string)
      requires Valid() && IsRecount(counts, all) && from == DeclaredOf(all, v)
      modifies this
      ensures Valid() && IsRecount(counts, Moved(all, v, to))
    {
      var before, after := RunGoals(from), RunGoals(to);
      if before == after {
        forall name, goal ensures CountsDeclaring(counts, Moved(all, v, to), name, goal) {
          assert CountsDeclaring(counts, all, name, goal);
          CountMoves(all, v, to, name, goal);
        }
        return;
      }
      AddAll(before, -1);
      ghost var less := counts;
      AddAll(after, 1);
      forall name, goal ensures CountsDeclaring(counts, Moved(all, v, to), name, goal) {
        assert CountedAll(old(counts), less, before, -1, name, goal);
        assert CountedAll(less, counts, after, 1, name, goal);
        assert CountsDeclaring(old(counts), all, name, goal);
        CountMoves(all, v, to, name, goal);
      }
      shared := None;
    }

    /** The counts as of now; what was handed out before stays as it was. */
    method Share() returns (now: Counts)
      requires Valid()
      modifies this`shared
      ensures Valid() && now == counts
    {
      if shared.None? {
        shared := Some(counts);
      }
      now := shared.value;
    }
  }
}

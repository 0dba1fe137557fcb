/**
 The maps lineage joins rows over (`lineage_index`): for every digest and run the entries
 of the rows that made or took it, in row order.

 An index is built from all rows once, then moved along with the rows that changed. Main
 result: `LineageIndex.Moved` gives what building from the new rows gives — the same
 groups, the same entries in row order, no empty group left — and leaves the index it
 was moved from as it was. Asked of the rows: verstrs do not repeat, `idx` rises, and a
 row whose object did not change has neither another `idx` nor other outputs.
 */
module LineageIndex {
  datatype Option<+T> = None | Some(value: T)

  /** What an input's URI names: a run's artifact, a registered version, anything else. */
  datatype Source = Artifact(app: string, verstr: string, path: string) | Registry | Other

  /** An input: `logged` is its digest as logged, `digest` as compared. */
  datatype Input = Input(name: string, source: Source, logged: Option<string>, digest: Option<string>)

  datatype Output = Output(path: string, digest: Option<string>)

  datatype Row = Row(verstr: string, idx: nat, inputs: seq<Input>, outputs: seq<Output>)

  /** The key of a group, and which map it is in. */
  datatype Group = Producers(digest: string) | DigestConsumers(digest: string) | UriConsumers(app: string, of: string)

  datatype Entry =
    | Made(verstr: string, path: string)
    | Took(verstr: string, name: string, logged: Option<string>)
    | Named(verstr: string, name: string, logged: Option<string>, path: string)

  type Groups = map<Group, seq<Entry>>

  // --------------------------------------------------------------------- entries

  /** An entry and the group it goes to. */
  datatype Addition = Addition(group: Group, entry: Entry)

  function OutputAdditions(verstr: string, outputs: seq<Output>): seq<Addition> {
    if outputs == [] then []
    else
      var rest, o := OutputAdditions(verstr, outputs[..|outputs| - 1]), outputs[|outputs| - 1];
      if o.digest.Some? then rest + [Addition(Producers(o.digest.value), Made(verstr, o.path))] else rest
  }

  function InputAdditions(verstr: string, inputs: seq<Input>): seq<Addition> {
    if inputs == [] then []
    else
      var rest, i := InputAdditions(verstr, inputs[..|inputs| - 1]), inputs[|inputs| - 1];
      match i.source
      case Artifact(app, of, path) => rest + [Addition(UriConsumers(app, of), Named(verstr, i.name, i.logged, path))]
      case Registry => rest
      case Other =>
        if i.digest.Some? then rest + [Addition(DigestConsumers(i.digest.value), Took(verstr, i.name, i.logged))]
        else rest
  }

  /** What a row adds to the maps, in order. */
  function Entries(row: Row): seq<Addition> {
    OutputAdditions(row.verstr, row.outputs) + InputAdditions(row.verstr, row.inputs)
  }

  function Only(adds: seq<Addition>, g: Group): seq<Entry> {
    if adds == [] then []
    else
      var rest, a := Only(adds[..|adds| - 1], g), adds[|adds| - 1];
      if a.group == g then rest + [a.entry] else rest
  }

  /** What a row adds to one group. */
  function EntriesIn(row: Row, g: Group): seq<Entry> { Only(Entries(row), g) }

  /** A group as the rows make it, in row order. */
  function GroupOf(rows: seq<Row>, g: Group): seq<Entry> {
    if rows == [] then [] else GroupOf(rows[..|rows| - 1], g) + EntriesIn(rows[|rows| - 1], g)
  }

  function Held(groups: Groups, g: Group): seq<Entry> { if g in groups then groups[g] else [] }

  ghost predicate GroupRight(groups: Groups, rows: seq<Row>, g: Group) {
    Held(groups, g) == GroupOf(rows, g) && (g in groups ==> groups[g] != [])
  }

  /** What the rows' groups are, none of them empty. */
  ghost predicate Indexes(groups: Groups, rows: seq<Row>) {
    forall g :: GroupRight(groups, rows, g)
  }

  /** Rows in order of `idx`, no verstr twice. */
  ghost predicate InOrder(rows: seq<Row>) {
    forall i, j :: 0 <= i < j < |rows| ==> rows[i].idx < rows[j].idx && rows[i].verstr != rows[j].verstr
  }

  function ByVerstr(rows: seq<Row>): map<string, Row> {
    if rows == [] then map[] else ByVerstr(rows[..|rows| - 1])[rows[|rows| - 1].verstr := rows[|rows| - 1]]
  }

  lemma {:induction false} ByVerstrIs(rows: seq<Row>)
    requires InOrder(rows)
    ensures forall v :: v in ByVerstr(rows) <==> exists r :: r in rows && r.verstr == v
    ensures forall r :: r in rows ==> r.verstr in ByVerstr(rows) && ByVerstr(rows)[r.verstr] == r
  {
    if rows != [] {
      var init, last := rows[..|rows| - 1], rows[|rows| - 1];
      ByVerstrIs(init);
      forall r | r in rows ensures r.verstr in ByVerstr(rows) && ByVerstr(rows)[r.verstr] == r {
        var i :| 0 <= i < |rows| && rows[i] == r;
        if i < |rows| - 1 {
          assert r == init[i];
        }
      }
      forall v ensures v in ByVerstr(rows) <==> exists r :: r in rows && r.verstr == v {
        if v in ByVerstr(init) {
          var r :| r in init && r.verstr == v;
          assert r in rows;
        }
        if v == last.verstr {
          assert last in rows;
        }
      }
    }
  }

  // -------------------------------------------------------- what is in the groups

  /** What an output adds, if anything. */
  ghost predicate AddsOutput(verstr: string, o: Output, a: Addition) {
    o.digest.Some? && a == Addition(Producers(o.digest.value), Made(verstr, o.path))
  }

  /** What an input adds, if anything: named outright, or by digest unless registered. */
  ghost predicate AddsInput(verstr: string, i: Input, a: Addition) {
    match i.source
    case Artifact(app, of, path) => a == Addition(UriConsumers(app, of), Named(verstr, i.name, i.logged, path))
    case Registry => false
    case Other => i.digest.Some? && a == Addition(DigestConsumers(i.digest.value), Took(verstr, i.name, i.logged))
  }

  lemma {:induction false} OutputsAdd(verstr: string, outputs: seq<Output>, a: Addition)
    ensures a in OutputAdditions(verstr, outputs) <==> exists o :: o in outputs && AddsOutput(verstr, o, a)
  {
    if outputs != [] {
      var init, last := outputs[..|outputs| - 1], outputs[|outputs| - 1];
      OutputsAdd(verstr, init, a);
      assert a in OutputAdditions(verstr, outputs) <==> a in OutputAdditions(verstr, init) || AddsOutput(verstr, last, a);
      assert last in outputs && forall o :: o in outputs <==> o in init || o == last;
    }
  }

  lemma {:induction false} InputsAdd(verstr: string, inputs: seq<Input>, a: Addition)
    ensures a in InputAdditions(verstr, inputs) <==> exists i :: i in inputs && AddsInput(verstr, i, a)
  {
    if inputs != [] {
      var init, last := inputs[..|inputs| - 1], inputs[|inputs| - 1];
      InputsAdd(verstr, init, a);
      assert a in InputAdditions(verstr, inputs) <==> a in InputAdditions(verstr, init) || AddsInput(verstr, last, a);
      assert last in inputs && forall i :: i in inputs <==> i in init || i == last;
    }
  }

  lemma {:induction false} OnlyHolds(adds: seq<Addition>, g: Group, e: Entry)
    ensures e in Only(adds, g) <==> Addition(g, e) in adds
  {
    if adds != [] {
      OnlyHolds(adds[..|adds| - 1], g, e);
      assert forall a :: a in adds <==> a in adds[..|adds| - 1] || a == adds[|adds| - 1];
    }
  }

  /** An entry is in a row's part of a group just when an input or output of it says so. */
  lemma EntriesSay(row: Row, g: Group, e: Entry)
    ensures e in EntriesIn(row, g) <==>
      || (exists o :: o in row.outputs && AddsOutput(row.verstr, o, Addition(g, e)))
      || (exists i :: i in row.inputs && AddsInput(row.verstr, i, Addition(g, e)))
  {
    OnlyHolds(Entries(row), g, e);
    OutputsAdd(row.verstr, row.outputs, Addition(g, e));
    InputsAdd(row.verstr, row.inputs, Addition(g, e));
  }

  lemma {:induction false} GroupHolds(rows: seq<Row>, g: Group, e: Entry)
    ensures e in GroupOf(rows, g) <==> exists r :: r in rows && e in EntriesIn(r, g)
  {
    if rows != [] {
      GroupHolds(rows[..|rows| - 1], g, e);
      assert forall r :: r in rows <==> r in rows[..|rows| - 1] || r == rows[|rows| - 1];
    }
  }

  // ------------------------------------------------------------ lists in row order

  /** The entries of one run among some. */
  function Of(es: seq<Entry>, v: string): seq<Entry> {
    if es == [] then []
    else
      var rest, e := Of(es[..|es| - 1], v), es[|es| - 1];
      if e.verstr == v then rest + [e] else rest
  }

  lemma {:induction false} OfJoined(a: seq<Entry>, b: seq<Entry>, v: string)
    ensures Of(a + b, v) == Of(a, v) + Of(b, v)
  {
    if b == [] {
      assert a + b == a;
    } else {
      assert (a + b)[..|a + b| - 1] == a + b[..|b| - 1];
      OfJoined(a, b[..|b| - 1], v);
    }
  }

  /** Entries all of one run. */
  ghost predicate AllOf(es: seq<Entry>, v: string) {
    forall i :: 0 <= i < |es| ==> es[i].verstr == v
  }

  lemma {:induction false} OfOwn(es: seq<Entry>, v: string, w: string)
    requires AllOf(es, v)
    ensures Of(es, w) == if v == w then es else []
  {
    if es != [] {
      OfOwn(es[..|es| - 1], v, w);
    }
  }

  lemma {:induction false} OutputsOwn(v: string, outputs: seq<Output>)
    ensures forall i :: 0 <= i < |OutputAdditions(v, outputs)| ==> OutputAdditions(v, outputs)[i].entry.verstr == v
  {
    if outputs != [] {
      OutputsOwn(v, outputs[..|outputs| - 1]);
    }
  }

  lemma {:induction false} InputsOwn(v: string, inputs: seq<Input>)
    ensures forall i :: 0 <= i < |InputAdditions(v, inputs)| ==> InputAdditions(v, inputs)[i].entry.verstr == v
  {
    if inputs != [] {
      InputsOwn(v, inputs[..|inputs| - 1]);
    }
  }

  lemma {:induction false} OnlyOwn(adds: seq<Addition>, g: Group, v: string)
    requires forall i :: 0 <= i < |adds| ==> adds[i].entry.verstr == v
    ensures AllOf(Only(adds, g), v)
  {
    if adds != [] {
      OnlyOwn(adds[..|adds| - 1], g, v);
    }
  }

  lemma EntriesOwn(row: Row, g: Group)
    ensures AllOf(EntriesIn(row, g), row.verstr)
  {
    OutputsOwn(row.verstr, row.outputs);
    InputsOwn(row.verstr, row.inputs);
    OnlyOwn(Entries(row), g, row.verstr);
  }

  /** The row of a verstr adds its entries to a group once. */
  lemma {:induction false} OfGroup(rows: seq<Row>, g: Group, v: string)
    requires InOrder(rows)
    ensures v !in ByVerstr(rows) ==> Of(GroupOf(rows, g), v) == []
    ensures v in ByVerstr(rows) ==> Of(GroupOf(rows, g), v) == EntriesIn(ByVerstr(rows)[v], g)
  {
    if rows != [] {
      var init, last := rows[..|rows| - 1], rows[|rows| - 1];
      OfGroup(init, g, v);
      EntriesOwn(last, g);
      OfOwn(EntriesIn(last, g), last.verstr, v);
      OfJoined(GroupOf(init, g), EntriesIn(last, g), v);
      ByVerstrIs(rows);
      ByVerstrIs(init);
      assert last in rows;
      forall r | r in init ensures r.verstr != last.verstr {
        var i :| 0 <= i < |init| && init[i] == r;
        assert rows[i] == r && rows[i].verstr != rows[|rows| - 1].verstr;
      }
    }
  }

  type Places = map<string, nat>

  predicate Placed(es: seq<Entry>, at: Places) { forall i :: 0 <= i < |es| ==> es[i].verstr in at }

  /** In order of their rows' places. */
  ghost predicate Sorted(es: seq<Entry>, at: Places) {
    Placed(es, at) && forall i, j :: 0 <= i < j < |es| ==> at[es[i].verstr] <= at[es[j].verstr]
  }

  ghost predicate Injective(at: Places) {
    forall v, w :: v in at && w in at && at[v] == at[w] ==> v == w
  }

  lemma {:induction false} OfSome(es: seq<Entry>, i: nat)
    requires i < |es|
    ensures Of(es, es[i].verstr) != []
  {
    if i < |es| - 1 {
      assert es[i] == es[..|es| - 1][i];
      OfSome(es[..|es| - 1], i);
    }
  }

  lemma {:induction false} OfIsIn(es: seq<Entry>, v: string) returns (i: nat)
    requires Of(es, v) != []
    ensures i < |es| && es[i].verstr == v
  {
    if es[|es| - 1].verstr == v {
      i := |es| - 1;
    } else {
      i := OfIsIn(es[..|es| - 1], v);
    }
  }

  ghost predicate SameOf(a: seq<Entry>, b: seq<Entry>, v: string) { Of(a, v) == Of(b, v) }

  /** The last run of one list is no further on than that of the other. */
  lemma LastNotAfter(a: seq<Entry>, b: seq<Entry>, at: Places)
    requires Sorted(a, at) && Sorted(b, at) && a != []
    requires forall v :: SameOf(a, b, v)
    ensures b != [] && at[a[|a| - 1].verstr] <= at[b[|b| - 1].verstr]
  {
    var v := a[|a| - 1].verstr;
    OfSome(a, |a| - 1);
    assert SameOf(a, b, v);
    var j := OfIsIn(b, v);
  }

  /** Row order and each run's own entries make a list. */
  lemma {:induction false} SameByRun(a: seq<Entry>, b: seq<Entry>, at: Places)
    requires Sorted(a, at) && Sorted(b, at) && Injective(at)
    requires forall v :: SameOf(a, b, v)
    ensures a == b
    decreases |a|
  {
    forall v ensures SameOf(b, a, v) {
      assert SameOf(a, b, v);
    }
    if b != [] {
      LastNotAfter(b, a, at);
    }
    if a != [] {
      LastNotAfter(a, b, at);
      InitsSame(a, b, a[..|a| - 1], b[..|b| - 1]);
      SameByRun(a[..|a| - 1], b[..|b| - 1], at);
    }
  }

  lemma InitsSame(a: seq<Entry>, b: seq<Entry>, x: seq<Entry>, y: seq<Entry>)
    requires a != [] && b != [] && a[|a| - 1].verstr == b[|b| - 1].verstr
    requires x == a[..|a| - 1] && y == b[..|b| - 1]
    requires forall v :: SameOf(a, b, v)
    ensures a[|a| - 1] == b[|b| - 1]
    ensures forall v :: SameOf(x, y, v)
  {
    var last := a[|a| - 1].verstr;
    assert SameOf(a, b, last);
    assert a[|a| - 1] == Of(a, last)[|Of(a, last)| - 1];
    forall v ensures SameOf(x, y, v) {
      assert SameOf(a, b, v);
      if v == last {
        assert Of(x, v) == Of(a, v)[..|Of(a, v)| - 1];
        assert Of(y, v) == Of(b, v)[..|Of(b, v)| - 1];
      }
    }
  }

  lemma {:induction false} SortedFilter(es: seq<Entry>, drop: set<string>, was: Places, at: Places)
    requires Sorted(es, was)
    requires forall v :: v !in drop && Of(es, v) != [] ==> v in at && v in was && at[v] == was[v]
    ensures Sorted(Without(es, drop), at)
    ensures forall i :: 0 <= i < |Without(es, drop)| ==> Without(es, drop)[i] in es
  {
    if es != [] {
      var init, last := es[..|es| - 1], es[|es| - 1];
      forall v | v !in drop && Of(init, v) != [] ensures v in at && v in was && at[v] == was[v] {
        assert Of(es, v) != [];
      }
      SortedFilter(init, drop, was, at);
      OfSome(es, |es| - 1);
      if last.verstr !in drop {
        var rest := Without(init, drop);
        forall i | 0 <= i < |rest| ensures at[rest[i].verstr] <= at[last.verstr] {
          assert rest[i] in init;
          var j :| 0 <= j < |init| && init[j] == rest[i];
          assert es[j] == rest[i];
          OfSome(es, j);
          NotDropped(init, drop, i);
        }
      }
    }
  }

  lemma {:induction false} NotDropped(es: seq<Entry>, drop: set<string>, i: nat)
    requires i < |Without(es, drop)|
    ensures Without(es, drop)[i].verstr !in drop
  {
    if es[|es| - 1].verstr in drop || i < |Without(es, drop)| - 1 {
      NotDropped(es[..|es| - 1], drop, i);
    }
  }

  /** The entries but those of some runs. */
  function Without(es: seq<Entry>, drop: set<string>): seq<Entry> {
    if es == [] then []
    else
      var rest, e := Without(es[..|es| - 1], drop), es[|es| - 1];
      if e.verstr in drop then rest else rest + [e]
  }

  lemma {:induction false} OfWithout(es: seq<Entry>, drop: set<string>, v: string)
    ensures Of(Without(es, drop), v) == if v in drop then [] else Of(es, v)
  {
    if es != [] {
      var init, e := es[..|es| - 1], es[|es| - 1];
      OfWithout(init, drop, v);
      var rest := Without(init, drop);
      assert (rest + [e])[..|rest|] == rest;
    }
  }

  /** An entry of a group is of one of the rows. */
  lemma {:induction false} GroupFrom(rows: seq<Row>, g: Group, i: nat) returns (k: nat)
    requires i < |GroupOf(rows, g)|
    ensures k < |rows| && rows[k].verstr == GroupOf(rows, g)[i].verstr
  {
    var init, last := rows[..|rows| - 1], rows[|rows| - 1];
    EntriesOwn(last, g);
    if i < |GroupOf(init, g)| {
      k := GroupFrom(init, g, i);
    } else {
      k := |rows| - 1;
      assert GroupOf(rows, g)[i] == EntriesIn(last, g)[i - |GroupOf(init, g)|];
    }
  }

  /** A group is in row order. */
  lemma {:induction false} GroupSorted(rows: seq<Row>, g: Group, at: Places)
    requires InOrder(rows) && forall i :: 0 <= i < |rows| ==> rows[i].verstr in at && at[rows[i].verstr] == rows[i].idx
    ensures Sorted(GroupOf(rows, g), at)
  {
    if rows != [] {
      var init, last := rows[..|rows| - 1], rows[|rows| - 1];
      GroupSorted(init, g, at);
      EntriesOwn(last, g);
      var es := GroupOf(init, g);
      forall i | 0 <= i < |es| ensures at[es[i].verstr] < last.idx {
        var k := GroupFrom(init, g, i);
      }
    }
  }

  // ----------------------------------------------------------- what a move changes

  /** What a row has in a group, and where the row is. */
  datatype RowPart = RowPart(idx: nat, entries: seq<Entry>)

  type Parts = map<string, RowPart>

  /** The rows' parts of a group. */
  function PartsOf(rows: seq<Row>, g: Group): Parts { PartsIn(ByVerstr(rows), g) }

  function PartsIn(table: map<string, Row>, g: Group): Parts {
    map v | v in table && EntriesIn(table[v], g) != [] :: RowPart(table[v].idx, EntriesIn(table[v], g))
  }

  /** The parts of `a` that `b` has not, or not the same. */
  function Changes(a: Parts, b: Parts): Parts {
    map v | v in a && !(v in b && b[v] == a[v]) :: a[v]
  }

  /** The parts of a group among the rows of `from` that those of `to` do not have. */
  function Gone(to: seq<Row>, from: seq<Row>, g: Group): Parts { Changes(PartsOf(from, g), PartsOf(to, g)) }

  function EntriesOf(parts: Parts, v: string): seq<Entry> { if v in parts then parts[v].entries else [] }

  ghost predicate PartsOk(parts: Parts, at: Places) {
    forall v :: v in parts ==> v in at && at[v] == parts[v].idx && parts[v].entries != [] && AllOf(parts[v].entries, v)
  }

  /** The places of a table's rows. */
  function PlacesOf(rows: map<string, Row>): Places { map v | v in rows :: rows[v].idx }

  /** A list of a group after `gone` parts went and `added` ones came. */
  ghost predicate Swapped(was: seq<Entry>, now: seq<Entry>, gone: Parts, added: Parts, v: string) {
    Of(now, v) == (if v in gone then [] else Of(was, v)) + EntriesOf(added, v)
  }

  /** The rows that stay are in both lists; `joined` came and `left` went. */
  ghost predicate Moves(prev: seq<Row>, rows: seq<Row>, joined: seq<Row>, left: seq<Row>, stay: set<Row>) {
    && InOrder(prev) && InOrder(rows) && InOrder(joined) && InOrder(left)
    && (forall r :: r in stay ==> r in prev && r in rows)
    && (forall r :: r in joined <==> r in rows && r !in stay)
    && (forall r :: r in left <==> r in prev && r !in stay)
  }

  lemma MovesInOrder(prev: seq<Row>, rows: seq<Row>, joined: seq<Row>, left: seq<Row>, stay: set<Row>)
    requires Moves(prev, rows, joined, left, stay)
    ensures InOrder(joined) && InOrder(left)
  {
  }

  /** A run's entries in a group after the move are what the new rows say. */
  lemma SwappedIsNew(prev: seq<Row>, rows: seq<Row>, joined: seq<Row>, left: seq<Row>, stay: set<Row>,
                     g: Group, v: string)
    requires Moves(prev, rows, joined, left, stay)
    ensures (if v in Gone(joined, left, g) then [] else Of(GroupOf(prev, g), v)) + EntriesOf(Gone(left, joined, g), v)
            == Of(GroupOf(rows, g), v)
  {
    assert InOrder(prev) && InOrder(rows) && InOrder(joined) && InOrder(left);
    hide *;
    OfGroup(prev, g, v);
    OfGroup(rows, g, v);
    OfGroup(joined, g, v);
    OfGroup(left, g, v);
    PartEntries(joined, g, v);
    PartEntries(left, g, v);
    StayOrMove(prev, rows, joined, left, stay, v);
    ChangesSwap(joined, left, g, v, Of(GroupOf(prev, g), v));
  }

  lemma PartEntries(rows: seq<Row>, g: Group, v: string)
    ensures EntriesOf(PartsOf(rows, g), v) == if v in ByVerstr(rows) then EntriesIn(ByVerstr(rows)[v], g) else []
    ensures v in PartsOf(rows, g) ==> v in ByVerstr(rows)
  {
    hide EntriesIn;
  }

  /** Swapping what changed: a run's entries end up those of the rows that joined. */
  lemma ChangesSwap(joined: seq<Row>, left: seq<Row>, g: Group, v: string, was: seq<Entry>)
    ensures EntriesOf(PartsOf(left, g), v) == was ==>
              (if v in Gone(joined, left, g) then [] else was) + EntriesOf(Gone(left, joined, g), v)
              == EntriesOf(PartsOf(joined, g), v)
    ensures v !in PartsOf(left, g) && v !in PartsOf(joined, g) ==>
              (if v in Gone(joined, left, g) then [] else was) + EntriesOf(Gone(left, joined, g), v) == was
  {
    hide PartsIn;
  }

  /** A verstr's row stays, or it is one that left, one that joined, both or neither. */
  lemma StayOrMove(prev: seq<Row>, rows: seq<Row>, joined: seq<Row>, left: seq<Row>, stay: set<Row>, v: string)
    requires Moves(prev, rows, joined, left, stay)
    ensures var p, n, j, l := ByVerstr(prev), ByVerstr(rows), ByVerstr(joined), ByVerstr(left);
            || (v in p && v in n && p[v] == n[v] && v !in j && v !in l)
            || ((v in l <==> v in p) && (v in j <==> v in n)
                && (v in l ==> l[v] == p[v]) && (v in j ==> j[v] == n[v]))
  {
    ByVerstrIs(prev);
    ByVerstrIs(rows);
    ByVerstrIs(joined);
    ByVerstrIs(left);
    if r :| r in stay && r.verstr == v {
      StayingRow(prev, r);
      StayingRow(rows, r);
      NotMoved(joined, prev, rows, stay, r);
      NotMoved(left, prev, rows, stay, r);
    }
  }

  lemma StayingRow(rows: seq<Row>, r: Row)
    requires InOrder(rows) && r in rows
    ensures r.verstr in ByVerstr(rows) && ByVerstr(rows)[r.verstr] == r
  {
    ByVerstrIs(rows);
  }

  lemma NotMoved(some: seq<Row>, prev: seq<Row>, rows: seq<Row>, stay: set<Row>, r: Row)
    requires InOrder(prev) && InOrder(rows) && InOrder(some) && r in prev && r in rows && r in stay
    requires (forall x :: x in some ==> x in rows && x !in stay) || (forall x :: x in some ==> x in prev && x !in stay)
    ensures r.verstr !in ByVerstr(some)
  {
    ByVerstrIs(some);
    ByVerstrIs(prev);
    ByVerstrIs(rows);
  }

  /** The index after the move is that of the new rows. */
  lemma MovedGroup(prev: seq<Row>, rows: seq<Row>, joined: seq<Row>, left: seq<Row>, stay: set<Row>, g: Group,
                   now: seq<Entry>)
    requires Moves(prev, rows, joined, left, stay) && Sorted(now, PlacesOf(ByVerstr(rows)))
    requires forall v :: Swapped(GroupOf(prev, g), now, Gone(joined, left, g), Gone(left, joined, g), v)
    ensures now == GroupOf(rows, g)
  {
    var at := PlacesOf(ByVerstr(rows));
    forall v ensures SameOf(now, GroupOf(rows, g), v) {
      assert Swapped(GroupOf(prev, g), now, Gone(joined, left, g), Gone(left, joined, g), v);
      SwappedIsNew(prev, rows, joined, left, stay, g, v);
    }
    ByVerstrIs(rows);
    assert forall i :: 0 <= i < |rows| ==> rows[i] in rows;
    GroupSorted(rows, g, at);
    PlacesDiffer(rows);
    SameByRun(now, GroupOf(rows, g), at);
  }

  lemma PlacesDiffer(rows: seq<Row>)
    requires InOrder(rows)
    ensures Injective(PlacesOf(ByVerstr(rows)))
  {
    ByVerstrIs(rows);
    var table := ByVerstr(rows);
    forall v, w | v in table && w in table && table[v].idx == table[w].idx ensures v == w {
      var r :| r in rows && r.verstr == v;
      var q :| q in rows && q.verstr == w;
      var i :| 0 <= i < |rows| && rows[i] == r;
      var j :| 0 <= j < |rows| && rows[j] == q;
      assert table[v] == r && table[w] == q;
    }
  }

  // -------------------------------------------------------------------- the index

  /** The first entry of a row past `idx`, in a list in row order (a bisect). */
  method After(es: seq<Entry>, at: Places, idx: nat) returns (lo: nat)
    requires Sorted(es, at)
    ensures lo <= |es| && (forall i :: 0 <= i < lo ==> at[es[i].verstr] <= idx)
    ensures forall i :: lo <= i < |es| ==> at[es[i].verstr] > idx
  {
    lo := 0;
    var hi := |es|;
    while lo < hi
      invariant lo <= hi <= |es|
      invariant forall i :: 0 <= i < lo ==> at[es[i].verstr] <= idx
      invariant forall i :: hi <= i < |es| ==> at[es[i].verstr] > idx
    {
      var mid := (lo + hi) / 2;
      if at[es[mid].verstr] <= idx {
        lo := mid + 1;
      } else {
        hi := mid;
      }
    }
  }

  /** An entry put after those of rows up to its own keeps the list in order, and comes last
      among its run's. */
  lemma InsertedAfter(es: seq<Entry>, at: Places, e: Entry, lo: nat, v: string)
    requires Placed(es, at) && e.verstr in at && lo <= |es|
    requires forall i :: lo <= i < |es| ==> at[es[i].verstr] > at[e.verstr]
    ensures Of(es[..lo] + [e] + es[lo..], v) == Of(es, v) + if e.verstr == v then [e] else []
  {
    hide Of;
    var a, b := es[..lo], es[lo..];
    assert a + b == es;
    OfJoined(a, b, v);
    OfJoined(a + [e], b, v);
    OfJoined(a, [e], v);
    OneOf(e, v);
    if e.verstr == v {
      NoneOf(b, v);
    }
  }

  lemma InsertedSorted(es: seq<Entry>, at: Places, e: Entry, lo: nat)
    requires Sorted(es, at) && e.verstr in at && lo <= |es|
    requires forall i :: 0 <= i < lo ==> at[es[i].verstr] <= at[e.verstr]
    requires forall i :: lo <= i < |es| ==> at[es[i].verstr] > at[e.verstr]
    ensures Sorted(es[..lo] + [e] + es[lo..], at)
  {
    var a, b := es[..lo] + [e], es[lo..];
    assert a != [] && b != [] ==> at[a[|a| - 1].verstr] <= at[b[0].verstr];
    AppendedSorted(a, b, at);
  }

  lemma OneOf(e: Entry, v: string)
    ensures Of([e], v) == if e.verstr == v then [e] else []
  {
    assert [e][..0] == [];
  }

  lemma {:induction false} NoneOf(es: seq<Entry>, v: string)
    requires forall i :: 0 <= i < |es| ==> es[i].verstr != v
    ensures Of(es, v) == []
  {
    if es != [] {
      NoneOf(es[..|es| - 1], v);
    }
  }

  /** The entries of the parts but those left, in order of their rows' places, none of them
      past the next one. */
  ghost predicate Placing(es: seq<Entry>, parts: Parts, left: Parts, at: Places) {
    && left.Keys <= parts.Keys && (forall v :: v in left ==> left[v] == parts[v])
    && Sorted(es, at)
    && (forall i, v :: 0 <= i < |es| && v in left ==> at[es[i].verstr] <= left[v].idx)
    && (forall v :: OfPart(es, parts, left, v))
  }

  lemma PlacedNext(es: seq<Entry>, parts: Parts, left: Parts, at: Places, v: string)
    requires PartsOk(parts, at) && Placing(es, parts, left, at)
    requires v in left && forall w :: w in left ==> left[v].idx <= left[w].idx
    ensures Placing(es + left[v].entries, parts, left - {v}, at) && |left - {v}| < |left|
  {
    var more, less := es + left[v].entries, left - {v};
    assert less.Keys == left.Keys - {v} && |less.Keys| == |left.Keys| - 1;
    forall w ensures OfPart(more, parts, less, w) {
      assert OfPart(es, parts, left, w);
      OfJoined(es, parts[v].entries, w);
      OfOwn(parts[v].entries, v, w);
    }
  }

  /** The entries of the parts, in order of their rows' places. */
  method InPlaceOrder(parts: Parts, at: Places) returns (es: seq<Entry>)
    requires PartsOk(parts, at)
    ensures Sorted(es, at) && forall v :: OfPart(es, parts, map[], v)
  {
    es := [];
    var left := parts;
    while left != map[]
      invariant Placing(es, parts, left, at)
      decreases |left|
    {
      ghost var least := LeastOf(left);
      var v :| v in left && forall w :: w in left ==> left[v].idx <= left[w].idx;
      PlacedNext(es, parts, left, at, v);
      es := es + left[v].entries;
      left := left - {v};
    }
  }

  /** The entries of a part not left any more are in the list. */
  ghost predicate OfPart(es: seq<Entry>, parts: Parts, left: Parts, v: string) {
    Of(es, v) == if v in parts && v !in left then parts[v].entries else []
  }

  lemma LeastOf(parts: Parts) returns (v: string)
    requires parts != map[]
    ensures v in parts && forall w :: w in parts ==> parts[v].idx <= parts[w].idx
    decreases |parts|
  {
    var any :| any in parts.Keys;
    v := any;
    var rest := parts - {any};
    assert rest.Keys == parts.Keys - {any} && |rest.Keys| == |parts.Keys| - 1;
    if rest != map[] {
      var u := LeastOf(rest);
      if rest[u].idx < parts[any].idx {
        v := u;
      }
      assert forall w :: w in parts ==> w == any || w in rest;
    }
  }

  /** Each run's entries are the same in both lists. */
  ghost predicate SameRuns(a: seq<Entry>, b: seq<Entry>) { forall v :: SameOf(a, b, v) }

  /** Puts entries in row order among others in row order. */
  method Insert(kept: seq<Entry>, added: seq<Entry>, at: Places) returns (es: seq<Entry>)
    requires Sorted(kept, at) && Sorted(added, at)
    ensures Sorted(es, at) && SameRuns(es, kept + added)
  {
    es := kept;
    assert kept + added[..0] == kept;
    for i := 0 to |added|
      invariant Sorted(es, at)
      invariant SameRuns(es, kept + added[..i])
    {
      ghost var was, before, next := es, kept + added[..i], kept + added[..i + 1];
      var lo := After(es, at, at[added[i].verstr]);
      es := es[..lo] + [added[i]] + es[lo..];
      assert next == before + [added[i]];
      forall v ensures SameOf(es, next, v) {
        assert SameOf(was, before, v);
        InsertedAfter(was, at, added[i], lo, v);
        OfJoined(before, [added[i]], v);
        OneOf(added[i], v);
      }
      InsertedSorted(was, at, added[i], lo);
    }
    assert added[..|added|] == added;
  }

  class LineageIndex {
    var rowList: seq<Row>
    var rows: map<string, Row>
    var groups: Groups

    ghost predicate Right()
      reads this
    {
      InOrder(rowList) && rows == ByVerstr(rowList) && Indexes(groups, rowList)
    }

    /** An index of the rows. */
    constructor (rowList: seq<Row>)
      requires InOrder(rowList)
      ensures Right() && this.rowList == rowList
    {
      this.rowList, rows, groups := rowList, map[], map[];
      new;
      for i := 0 to |rowList|
        invariant this.rowList == rowList
        invariant rows == ByVerstr(rowList[..i]) && Indexes(groups, rowList[..i])
      {
        assert rowList[..i + 1][..i] == rowList[..i];
        rows := rows[rowList[i].verstr := rowList[i]];
        AddRow(rowList[..i], rowList[i]);
        assert rowList[..i + 1] == rowList[..i] + [rowList[i]];
      }
      assert rowList[..|rowList|] == rowList;
    }

    /** Adds a row's entries to their groups. */
    method AddRow(ghost before: seq<Row>, row: Row)
      requires Indexes(groups, before)
      modifies this`groups
      ensures Indexes(groups, before + [row])
    {
      var adds := Entries(row);
      forall g ensures Adding(groups, before, adds[..0], g) {
        assert GroupRight(groups, before, g);
      }
      for i := 0 to |adds|
        invariant forall g :: Adding(groups, before, adds[..i], g)
      {
        var g := adds[i].group;
        ghost var was, some := groups, adds[..i + 1];
        groups := groups[g := Held(groups, g) + [adds[i].entry]];
        forall h ensures Adding(groups, before, some, h) {
          assert Adding(was, before, adds[..i], h);
          assert some[..i] == adds[..i];
        }
      }
      assert adds[..|adds|] == adds && (before + [row])[..|before|] == before;
      forall g ensures GroupRight(groups, before + [row], g) {
        assert Adding(groups, before, adds, g);
      }
    }

    /** The groups with some of a row's entries added. */
    static ghost predicate Adding(groups: Groups, before: seq<Row>, adds: seq<Addition>, g: Group) {
      Held(groups, g) == GroupOf(before, g) + Only(adds, g) && (g in groups ==> groups[g] != [])
    }

    constructor Copy(rowList: seq<Row>, rows: map<string, Row>, groups: Groups)
      ensures this.rowList == rowList && this.rows == rows && this.groups == groups
    {
      this.rowList, this.rows, this.groups := rowList, rows, groups;
    }

    /** `prev`'s index moved to `rowList`. */
    static method Moved(prev: LineageIndex, rowList: seq<Row>, joined: seq<Row>, left: seq<Row>, ghost stay: set<Row>)
      returns (index: LineageIndex)
      requires prev.Right() && Moves(prev.rowList, rowList, joined, left, stay)
      ensures fresh(index) && index.Right() && index.rowList == rowList
    {
      var joinedRows := ByVerstr(joined);
      var rows := prev.rows;
      ghost var gone: set<string> := {};
      for i := 0 to |left|
        invariant gone == ByVerstr(left[..i]).Keys - joinedRows.Keys && rows == prev.rows - gone
      {
        assert left[..i + 1][..i] == left[..i];
        if left[i].verstr !in joinedRows {
          gone := gone + {left[i].verstr};
          rows := rows - {left[i].verstr};
        }
      }
      assert left[..|left|] == left;
      MovedTable(prev.rowList, rowList, joined, left, stay);
      index := new LineageIndex.Copy(rowList, rows + joinedRows, prev.groups);
      index.Regroups(prev.rowList, joined, left, stay);
    }

    /** Brings every group a moved row is in to the new rows. */
    method Regroups(ghost prev: seq<Row>, joined: seq<Row>, left: seq<Row>, ghost stay: set<Row>)
      requires Moves(prev, rowList, joined, left, stay) && Indexes(groups, prev)
      requires InOrder(rowList) && rows == ByVerstr(rowList)
      modifies this`groups
      ensures Indexes(groups, rowList)
    {
      hide *;
      MovesInOrder(prev, rowList, joined, left, stay);
      var was := Grouped(left);
      var now := Grouped(joined);
      var at := PlacesOf(rows);
      var touched := was.Keys + now.Keys;
      var todo := touched;
      NoProgress(groups, prev, rowList, touched);
      while todo != {}
        invariant todo <= touched && forall g :: Progress(groups, prev, rowList, todo, touched, g)
        decreases todo
      {
        var g :| g in todo;
        ghost var before := groups;
        assert Progress(groups, prev, rowList, todo, touched, g);
        NotDone(groups, prev, rowList, todo, touched, g);
        RegroupOne(g, HeldParts(was, g), HeldParts(now, g), at, prev, joined, left, stay);
        ProgressOn(before, groups, prev, rowList, todo, touched, g);
        todo := todo - {g};
      }
      Finished(groups, prev, rowList, joined, left, stay, was, now);
    }

    method RegroupOne(g: Group, was: Parts, now: Parts, at: Places,
                      ghost prev: seq<Row>, ghost joined: seq<Row>, ghost left: seq<Row>, ghost stay: set<Row>)
      requires Moves(prev, rowList, joined, left, stay) && GroupRight(groups, prev, g)
      requires was == PartsOf(left, g) && now == PartsOf(joined, g) && at == PlacesOf(ByVerstr(rowList))
      modifies this`groups
      ensures OnlyAt(old(groups), groups, g)
      ensures GroupRight(groups, rowList, g)
    {
      var gone, added := Changes(was, now), Changes(now, was);
      if gone == map[] && added == map[] {
        UnchangedGroup(prev, rowList, joined, left, stay, g);
        return;
      }
      KeptSorted(prev, rowList, joined, left, stay, g);
      AddedOk(prev, rowList, joined, left, stay, g);
      Regroup(g, gone, added, at);
      MovedGroup(prev, rowList, joined, left, stay, g, Held(groups, g));
    }

    /** Swaps the parts of a group that went for those that came, keeping row order. */
    method Regroup(g: Group, gone: Parts, added: Parts, at: Places)
      requires PartsOk(added, at) && Sorted(Without(Held(groups, g), gone.Keys), at)
      modifies this`groups
      ensures OnlyAt(old(groups), groups, g)
      ensures g in groups ==> groups[g] != []
      ensures Sorted(Held(groups, g), at)
      ensures forall v :: Swapped(Held(old(groups), g), Held(groups, g), gone, added, v)
    {
      var now := Swap(Held(groups, g), gone, added, at);
      groups := if now != [] then groups[g := now] else groups - {g};
    }
  }

  /** What is kept of a group is in the order of the new rows. */
  lemma KeptSorted(prev: seq<Row>, rows: seq<Row>, joined: seq<Row>, left: seq<Row>, stay: set<Row>, g: Group)
    requires Moves(prev, rows, joined, left, stay)
    ensures Sorted(Without(GroupOf(prev, g), Gone(joined, left, g).Keys), PlacesOf(ByVerstr(rows)))
  {
    var was, at, gone := PlacesOf(ByVerstr(prev)), PlacesOf(ByVerstr(rows)), Gone(joined, left, g);
    ByVerstrIs(prev);
    assert forall i :: 0 <= i < |prev| ==> prev[i] in prev;
    GroupSorted(prev, g, was);
    forall v | v !in gone.Keys && Of(GroupOf(prev, g), v) != [] ensures v in at && v in was && at[v] == was[v] {
      OfGroup(prev, g, v);
      StayOrMove(prev, rows, joined, left, stay, v);
    }
    SortedFilter(GroupOf(prev, g), gone.Keys, was, at);
  }

  /** The parts that came are of rows in their places. */
  lemma AddedOk(prev: seq<Row>, rows: seq<Row>, joined: seq<Row>, left: seq<Row>, stay: set<Row>, g: Group)
    requires Moves(prev, rows, joined, left, stay)
    ensures PartsOk(Gone(left, joined, g), PlacesOf(ByVerstr(rows)))
  {
    ByVerstrIs(joined);
    forall v | v in Gone(left, joined, g)
      ensures v in ByVerstr(rows) && ByVerstr(rows)[v] == ByVerstr(joined)[v]
      ensures AllOf(Gone(left, joined, g)[v].entries, v)
    {
      var r :| r in joined && r.verstr == v;
      StayingRow(rows, r);
      StayingRow(joined, r);
      EntriesOwn(r, g);
    }
  }

  lemma {:induction false} WithoutNone(es: seq<Entry>)
    ensures Without(es, {}) == es
  {
    if es != [] {
      WithoutNone(es[..|es| - 1]);
    }
  }

  /** A group no part of changed is the new rows' already. */
  lemma UnchangedGroup(prev: seq<Row>, rows: seq<Row>, joined: seq<Row>, left: seq<Row>, stay: set<Row>, g: Group)
    requires Moves(prev, rows, joined, left, stay)
    requires Gone(joined, left, g) == map[] && Gone(left, joined, g) == map[]
    ensures GroupOf(prev, g) == GroupOf(rows, g)
  {
    var es := GroupOf(prev, g);
    KeptSorted(prev, rows, joined, left, stay, g);
    assert Gone(joined, left, g).Keys == {};
    WithoutNone(es);
    forall v ensures Swapped(es, es, Gone(joined, left, g), Gone(left, joined, g), v) {
      assert Of(es, v) + [] == Of(es, v);
    }
    MovedGroup(prev, rows, joined, left, stay, g, es);
  }

  /** The table less the rows that left for good, with those that joined. */
  lemma MovedTable(prev: seq<Row>, rows: seq<Row>, joined: seq<Row>, left: seq<Row>, stay: set<Row>)
    requires Moves(prev, rows, joined, left, stay)
    ensures (ByVerstr(prev) - (ByVerstr(left).Keys - ByVerstr(joined).Keys)) + ByVerstr(joined) == ByVerstr(rows)
  {
    var moved := (ByVerstr(prev) - (ByVerstr(left).Keys - ByVerstr(joined).Keys)) + ByVerstr(joined);
    forall v ensures v in moved <==> v in ByVerstr(rows) {
      StayOrMove(prev, rows, joined, left, stay, v);
    }
    forall v | v in moved ensures moved[v] == ByVerstr(rows)[v] {
      StayOrMove(prev, rows, joined, left, stay, v);
    }
  }

  /** A group done is the new rows', one not done or never touched is as it was. */
  ghost predicate Progress(groups: Groups, prev: seq<Row>, rows: seq<Row>, todo: set<Group>,
                           touched: set<Group>, g: Group) {
    GroupRight(groups, if g in touched && g !in todo then rows else prev, g)
  }

  lemma NoProgress(groups: Groups, prev: seq<Row>, rows: seq<Row>, touched: set<Group>)
    requires Indexes(groups, prev)
    ensures forall g :: Progress(groups, prev, rows, touched, touched, g)
  {
    forall g ensures Progress(groups, prev, rows, touched, touched, g) {
      assert GroupRight(groups, prev, g);
    }
  }

  lemma NotDone(groups: Groups, prev: seq<Row>, rows: seq<Row>, todo: set<Group>, touched: set<Group>, g: Group)
    requires Progress(groups, prev, rows, todo, touched, g) && g in todo
    ensures GroupRight(groups, prev, g)
  {
  }

  /** Only group `g` changed. */
  ghost predicate OnlyAt(was: Groups, now: Groups, g: Group) {
    forall h :: h != g ==> SameGroup(was, now, h)
  }

  ghost predicate SameGroup(was: Groups, now: Groups, h: Group) {
    (h in now <==> h in was) && Held(now, h) == Held(was, h)
  }

  lemma ProgressOn(before: Groups, groups: Groups, prev: seq<Row>, rows: seq<Row>, todo: set<Group>,
                   touched: set<Group>, g: Group)
    requires forall h :: Progress(before, prev, rows, todo, touched, h)
    requires g in todo && todo <= touched && OnlyAt(before, groups, g) && GroupRight(groups, rows, g)
    ensures forall h :: Progress(groups, prev, rows, todo - {g}, touched, h)
  {
    forall h ensures Progress(groups, prev, rows, todo - {g}, touched, h) {
      assert Progress(before, prev, rows, todo, touched, h);
      assert h != g ==> SameGroup(before, groups, h);
    }
  }

  lemma Finished(groups: Groups, prev: seq<Row>, rows: seq<Row>, joined: seq<Row>, left: seq<Row>, stay: set<Row>,
                 was: map<Group, Parts>, now: map<Group, Parts>)
    requires Moves(prev, rows, joined, left, stay)
    requires forall g :: Progress(groups, prev, rows, {}, was.Keys + now.Keys, g)
    requires forall g :: HeldParts(was, g) == PartsOf(left, g)
    requires forall g :: HeldParts(now, g) == PartsOf(joined, g)
    ensures Indexes(groups, rows)
  {
    forall g ensures GroupRight(groups, rows, g) {
      assert Progress(groups, prev, rows, {}, was.Keys + now.Keys, g);
      if g !in was && g !in now {
        assert HeldParts(was, g) == map[] && HeldParts(now, g) == map[];
        UnchangedGroup(prev, rows, joined, left, stay, g);
      }
    }
  }

  /** A list of a group in row order, parts swapped for others. */
  method Swap(entries: seq<Entry>, gone: Parts, added: Parts, at: Places) returns (now: seq<Entry>)
    requires PartsOk(added, at) && Sorted(Without(entries, gone.Keys), at)
    ensures Sorted(now, at) && forall v :: Swapped(entries, now, gone, added, v)
  {
    var kept := Without(entries, gone.Keys);
    var more := InPlaceOrder(added, at);
    if kept != [] && more != [] && at[more[0].verstr] < at[kept[|kept| - 1].verstr] {
      now := Insert(kept, more, at);
    } else {
      now := kept + more;
      AppendedSorted(kept, more, at);
    }
    forall v ensures Swapped(entries, now, gone, added, v) {
      assert SameOf(now, kept + more, v) && OfPart(more, added, map[], v);
      OfJoined(kept, more, v);
      OfWithout(entries, gone.Keys, v);
    }
  }

  lemma AppendedSorted(a: seq<Entry>, b: seq<Entry>, at: Places)
    requires Sorted(a, at) && Sorted(b, at)
    requires a != [] && b != [] ==> at[a[|a| - 1].verstr] <= at[b[0].verstr]
    ensures Sorted(a + b, at) && SameRuns(a + b, a + b)
  {
    forall i, j | 0 <= i < |a| && 0 <= j < |b| ensures at[a[i].verstr] <= at[b[j].verstr] {
      assert at[a[i].verstr] <= at[a[|a| - 1].verstr] && at[b[0].verstr] <= at[b[j].verstr];
    }
  }

  /** The rows' entries by group and row. */
  method Grouped(rows: seq<Row>) returns (grouped: map<Group, Parts>)
    requires InOrder(rows)
    ensures forall g :: HeldParts(grouped, g) == PartsOf(rows, g)
  {
    grouped := map[];
    for i := 0 to |rows|
      invariant forall g :: GroupedRight(grouped, rows[..i], g)
    {
      ghost var next := rows[..i + 1];
      assert next == rows[..i] + [rows[i]];
      grouped := GroupRow(grouped, rows[..i], rows[i]);
      forall g ensures GroupedRight(grouped, next, g) {
        assert GroupedRight(grouped, rows[..i] + [rows[i]], g);
      }
    }
    assert rows[..|rows|] == rows;
    forall g ensures HeldParts(grouped, g) == PartsOf(rows, g) {
      assert GroupedRight(grouped, rows, g);
    }
  }

  function HeldParts(grouped: map<Group, Parts>, g: Group): Parts { if g in grouped then grouped[g] else map[] }

  ghost predicate GroupedRight(grouped: map<Group, Parts>, rows: seq<Row>, g: Group) {
    HeldParts(grouped, g) == PartsOf(rows, g)
  }

  /** A row's first entries, by group. */
  ghost predicate GroupingRow(grouped: map<Group, Parts>, before: seq<Row>, row: Row, adds: seq<Addition>, g: Group) {
    HeldParts(grouped, g)
    == if Only(adds, g) == [] then PartsOf(before, g)
       else PartsOf(before, g)[row.verstr := RowPart(row.idx, Only(adds, g))]
  }

  method GroupRow(was: map<Group, Parts>, ghost before: seq<Row>, row: Row) returns (grouped: map<Group, Parts>)
    requires InOrder(before + [row]) && forall g :: GroupedRight(was, before, g)
    ensures forall g :: GroupedRight(grouped, before + [row], g)
  {
    hide Only, PartsIn, Entries, InOrder;
    var adds := Entries(row);
    grouped := was;
    OnlyNone(adds);
    forall g ensures GroupingRow(grouped, before, row, adds[..0], g) {
      assert GroupedRight(was, before, g);
    }
    NotThere(before, row);
    for i := 0 to |adds|
      invariant forall g :: GroupingRow(grouped, before, row, adds[..i], g)
    {
      var g, e := adds[i].group, adds[i].entry;
      ghost var prior, first, next := grouped, adds[..i], adds[..i + 1];
      assert GroupingRow(grouped, before, row, first, g);
      var perRow := HeldParts(grouped, g);
      var part := if row.verstr in perRow then perRow[row.verstr] else RowPart(row.idx, []);
      grouped := grouped[g := perRow[row.verstr := part.(entries := part.entries + [e])]];
      forall h ensures GroupingRow(grouped, before, row, next, h) {
        OnlyMore(adds, i, h);
        assert GroupingRow(prior, before, row, first, h);
        if h == g {
          PartGrows(PartsOf(before, g), row.verstr, row.idx, Only(first, g), e);
          assert row.verstr !in PartsOf(before, g) && Only(next, g) == Only(first, g) + [e] && Only(next, g)[|Only(first, g)|] == e;
        } else {
          assert HeldParts(grouped, h) == HeldParts(prior, h) && Only(next, h) == Only(first, h);
        }
      }
    }
    assert adds[..|adds|] == adds;
    forall g ensures GroupedRight(grouped, before + [row], g) {
      assert GroupingRow(grouped, before, row, adds, g);
      PartsOfMore(before, row, g);
    }
  }

  lemma PartGrows(parts: Parts, v: string, idx: nat, only: seq<Entry>, e: Entry)
    requires v !in parts
    ensures var held := if only == [] then parts else parts[v := RowPart(idx, only)];
            var part := if v in held then held[v] else RowPart(idx, []);
            held[v := part.(entries := part.entries + [e])] == parts[v := RowPart(idx, only + [e])]
  {
  }

  lemma OnlyNone(adds: seq<Addition>)
    ensures forall g :: Only(adds[..0], g) == []
  {
  }

  lemma OnlyMore(adds: seq<Addition>, i: nat, g: Group)
    requires i < |adds|
    ensures Only(adds[..i + 1], g) == Only(adds[..i], g) + if adds[i].group == g then [adds[i].entry] else []
  {
    assert adds[..i + 1][..i] == adds[..i];
  }

  lemma NotThere(before: seq<Row>, row: Row)
    requires InOrder(before + [row])
    ensures InOrder(before) && row.verstr !in ByVerstr(before)
    ensures forall g :: row.verstr !in PartsOf(before, g)
  {
    var rows := before + [row];
    assert forall i :: 0 <= i < |before| ==> before[i] == rows[i];
    ByVerstrIs(before);
    forall r | r in before ensures r.verstr != row.verstr {
      var i :| 0 <= i < |before| && before[i] == r;
      assert rows[i].verstr != rows[|before|].verstr;
    }
  }

  lemma PartsOfMore(before: seq<Row>, row: Row, g: Group)
    requires InOrder(before + [row])
    ensures PartsOf(before + [row], g)
            == if EntriesIn(row, g) == [] then PartsOf(before, g)
               else PartsOf(before, g)[row.verstr := RowPart(row.idx, EntriesIn(row, g))]
  {
    NotThere(before, row);
    assert (before + [row])[..|before|] == before;
    OnePartMore(ByVerstr(before), row, g);
  }

  lemma OnePartMore(table: map<string, Row>, row: Row, g: Group)
    requires row.verstr !in table
    ensures PartsIn(table[row.verstr := row], g)
            == if EntriesIn(row, g) == [] then PartsIn(table, g)
               else PartsIn(table, g)[row.verstr := RowPart(row.idx, EntriesIn(row, g))]
  {
    hide EntriesIn;
  }
}

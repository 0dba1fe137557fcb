/**
 The walk over run-to-run lineage (`lineage`): breadth first from a run, level by level,
 over edges grouped by what joins them, at most `limit` runs deep in memory.

 A digest's group is walked once per level and context, and not again at a later level.
 `Walk.Run` proves this loses nothing: unless it says truncated, its nodes are exactly
 the runs within `depth` of the start in the plain edge graph, each at its shortest
 distance, with every link from the level before and no other. Truncated, it holds
 `limit` nodes, all of them right, and there is one more run to reach.

 What the groups have to be for that is `GroupsAgree`; the edges of one app's index have
 it (`UpstreamAgrees`, `DownstreamAgrees`).
 */
module LineageWalk {
  import opened LineageIndex

  datatype Key = Key(app: string, verstr: string)

  datatype Via = Uri | Digest

  datatype Link = Link(input: string, artifact: string, digest: Option<string>, via: Via)

  datatype Edge = Edge(other: Key, link: Link)

  /** What, with the group, says which links its edges carry. */
  datatype Context = Plain | Taking(input: string, digest: Option<string>) | Giving(path: string)

  /** A run's edges by what joins them; no group never repeats. */
  datatype Batch = Batch(group: Option<Option<string>>, context: Context, edges: seq<Edge>)

  /** The edges of each run that is there. */
  type Graph = map<Key, seq<Batch>>

  // ----------------------------------------------------------- the plain graph

  predicate HasEdge(g: Graph, u: Key, v: Key, l: Link) {
    u in g && exists i :: 0 <= i < |g[u]| && Edge(v, l) in g[u][i].edges
  }

  predicate Leads(g: Graph, u: Key, v: Key) {
    u in g && exists i :: 0 <= i < |g[u]| && Targets(g[u][i], v)
  }

  predicate Targets(b: Batch, v: Key) { exists i :: 0 <= i < |b.edges| && b.edges[i].other == v }

  lemma EdgeLeads(g: Graph, u: Key, v: Key, l: Link)
    requires HasEdge(g, u, v, l)
    ensures Leads(g, u, v)
  {
    var i :| 0 <= i < |g[u]| && Edge(v, l) in g[u][i].edges;
    var j :| 0 <= j < |g[u][i].edges| && g[u][i].edges[j] == Edge(v, l);
    assert Targets(g[u][i], v);
  }

  lemma LeadsByEdge(g: Graph, u: Key, v: Key) returns (l: Link)
    requires Leads(g, u, v)
    ensures HasEdge(g, u, v, l)
  {
    var i :| 0 <= i < |g[u]| && Targets(g[u][i], v);
    var j :| 0 <= j < |g[u][i].edges| && g[u][i].edges[j].other == v;
    l := g[u][i].edges[j].link;
    assert Edge(v, l) == g[u][i].edges[j];
  }

  /** `v` is at most `n` edges from `start`. */
  ghost predicate Within(g: Graph, start: Key, v: Key, n: nat)
    decreases n
  {
    if n == 0 then v == start
    else Within(g, start, v, n - 1) || exists u :: Leads(g, u, v) && Within(g, start, u, n - 1)
  }

  /** `n` is how far `v` is. */
  ghost predicate IsDepth(g: Graph, start: Key, v: Key, n: nat) {
    Within(g, start, v, n) && (n > 0 ==> !Within(g, start, v, n - 1))
  }

  lemma {:induction false} WithinMore(g: Graph, start: Key, v: Key, m: nat, n: nat)
    requires m <= n && Within(g, start, v, m)
    ensures Within(g, start, v, n)
    decreases n
  {
    if m < n {
      WithinMore(g, start, v, m, n - 1);
    }
  }

  /** Only the last level leads on to anything new. */
  lemma LastLevelLeads(g: Graph, start: Key, v: Key, n: nat)
    requires Within(g, start, v, n + 1) && !Within(g, start, v, n)
    ensures exists u, l :: IsDepth(g, start, u, n) && HasEdge(g, u, v, l)
  {
    var u :| Leads(g, u, v) && Within(g, start, u, n);
    var l := LeadsByEdge(g, u, v);
    assert IsDepth(g, start, u, n);
  }

  /** With nothing at distance `n`, nothing is further. */
  lemma {:induction false} NothingFurther(g: Graph, start: Key, v: Key, n: nat, m: nat)
    requires 0 < n <= m && Within(g, start, v, m)
    requires forall u :: !IsDepth(g, start, u, n)
    ensures Within(g, start, v, n - 1)
    decreases m
  {
    assert !IsDepth(g, start, v, n);
    if m > n {
      if Within(g, start, v, m - 1) {
        NothingFurther(g, start, v, n, m - 1);
      } else {
        var u :| Leads(g, u, v) && Within(g, start, u, m - 1);
        NothingFurther(g, start, u, n, m - 1);
      }
    }
  }

  // -------------------------------------------------------------------- groups

  ghost predicate InGraph(g: Graph, b: Batch) {
    exists u :: u in g && b in g[u]
  }

  /** Batches of a group lead to the same runs, and with one context by the same links. */
  ghost predicate Agree(a: Batch, b: Batch) {
    a.group.Some? && a.group == b.group ==>
      && (forall v :: Targets(a, v) <==> Targets(b, v))
      && (a.context == b.context ==> forall e :: e in a.edges <==> e in b.edges)
  }

  ghost predicate GroupsAgree(g: Graph) {
    forall a, b :: InGraph(g, a) && InGraph(g, b) ==> Agree(a, b)
  }

  // ------------------------------------------------------------- what is found

  datatype Node = Node(depth: nat, links: seq<Link>)

  type Nodes = map<Key, Node>

  /** The edge is taken in: its run found, by this link if it is of this level. */
  predicate Covered(nodes: Nodes, start: Key, level: nat, e: Edge) {
    e.other == start
    || (e.other in nodes && (nodes[e.other].depth == level ==> e.link in nodes[e.other].links))
  }

  ghost predicate CoveredAll(nodes: Nodes, start: Key, level: nat, edges: seq<Edge>) {
    forall e :: e in edges ==> Covered(nodes, start, level, e)
  }

  ghost predicate NoRepeats<T>(s: seq<T>) {
    forall i, j :: 0 <= i < j < |s| ==> s[i] != s[j]
  }

  /** A link some run of `frontier` has. */
  ghost predicate From(g: Graph, frontier: set<Key>, v: Key, l: Link) {
    exists u :: u in frontier && HasEdge(g, u, v, l)
  }

  /** A node found at this level: by links of `frontier`, each once. */
  ghost predicate NewRight(g: Graph, frontier: set<Key>, start: Key, level: nat, v: Key, node: Node) {
    && v != start && node.depth == level && node.links != [] && NoRepeats(node.links)
    && forall l :: l in node.links ==> From(g, frontier, v, l)
  }

  /** Nodes past those before this level are new and right. */
  ghost predicate LevelRight(g: Graph, frontier: set<Key>, start: Key, level: nat, base: Nodes, nodes: Nodes) {
    && (forall v :: v in base ==> v in nodes && nodes[v] == base[v] && base[v].depth < level)
    && (forall v :: v in nodes && v !in base ==> NewRight(g, frontier, start, level, v, nodes[v]))
  }

  /** Nodes and links only come. */
  ghost predicate Grown(was: Nodes, nodes: Nodes) {
    forall v :: v in was ==> v in nodes && nodes[v].depth == was[v].depth
                             && forall l :: l in was[v].links ==> l in nodes[v].links
  }

  lemma CoveredStays(was: Nodes, nodes: Nodes, start: Key, level: nat, edges: seq<Edge>)
    requires Grown(was, nodes) && CoveredAll(was, start, level, edges)
    ensures CoveredAll(nodes, start, level, edges)
  {
    forall e | e in edges ensures Covered(nodes, start, level, e) {
      assert Covered(was, start, level, e);
    }
  }

  lemma CoveredMore(was: Nodes, nodes: Nodes, start: Key, level: nat, edges: seq<Edge>, i: nat)
    requires i < |edges| && Grown(was, nodes) && CoveredAll(was, start, level, edges[..i])
    requires Covered(nodes, start, level, edges[i])
    ensures CoveredAll(nodes, start, level, edges[..i + 1])
  {
    CoveredStays(was, nodes, start, level, edges[..i]);
    assert forall x :: x in edges[..i + 1] ==> x in edges[..i] || x == edges[i];
  }

  lemma SameGrown(nodes: Nodes)
    ensures Grown(nodes, nodes)
  {
  }

  /** The level a group was first walked at, and the contexts it was walked with there. */
  datatype Walked = Walked(first: nat, contexts: set<Context>)

  type WalkedGroups = map<Option<string>, Walked>

  /** A batch of a group walked before this level leads nowhere new; one walked at this
      level with its context is covered. */
  ghost predicate WalkedRight(start: Key, level: nat, base: Nodes, nodes: Nodes, w: Walked, b: Batch) {
    && w.first <= level
    && (w.first < level ==> forall e :: e in b.edges ==> e.other == start || e.other in base)
    && (w.first == level && b.context in w.contexts ==> CoveredAll(nodes, start, level, b.edges))
  }

  ghost predicate BatchWalked(g: Graph, group: Option<string>, w: Walked, b: Batch) {
    InGraph(g, b) && b.group == Some(group) && b.context in w.contexts
  }

  ghost predicate GroupsRight(g: Graph, start: Key, level: nat, base: Nodes, nodes: Nodes, groups: WalkedGroups) {
    && (forall b :: InGraph(g, b) && b.group.Some? && b.group.value in groups ==>
          WalkedRight(start, level, base, nodes, groups[b.group.value], b))
    && (forall k :: k in groups ==> exists b :: BatchWalked(g, k, groups[k], b))
  }

  lemma GroupsStayRight(g: Graph, start: Key, level: nat, base: Nodes, was: Nodes, nodes: Nodes, groups: WalkedGroups)
    requires GroupsRight(g, start, level, base, was, groups) && Grown(was, nodes)
    ensures GroupsRight(g, start, level, base, nodes, groups)
  {
    forall b | InGraph(g, b) && b.group.Some? && b.group.value in groups
      ensures WalkedRight(start, level, base, nodes, groups[b.group.value], b)
    {
      var w := groups[b.group.value];
      assert WalkedRight(start, level, base, was, w, b);
      if w.first == level && b.context in w.contexts {
        CoveredStays(was, nodes, start, level, b.edges);
      }
    }
  }

  /** At the next level the groups so far all lead nowhere new. */
  lemma GroupsNextLevel(g: Graph, start: Key, level: nat, base: Nodes, nodes: Nodes, groups: WalkedGroups)
    requires GroupsRight(g, start, level, base, nodes, groups) && GroupsAgree(g)
    requires forall v :: v in base ==> v in nodes
    ensures GroupsRight(g, start, level + 1, nodes, nodes, groups)
  {
    forall b | InGraph(g, b) && b.group.Some? && b.group.value in groups
      ensures WalkedRight(start, level + 1, nodes, nodes, groups[b.group.value], b)
    {
      var w := groups[b.group.value];
      assert WalkedRight(start, level, base, nodes, w, b);
      if w.first == level {
        var a :| BatchWalked(g, b.group.value, w, a);
        assert WalkedRight(start, level, base, nodes, w, a);
        assert Agree(a, b);
        forall e | e in b.edges ensures e.other == start || e.other in nodes {
          assert Targets(b, e.other);
          assert Targets(a, e.other);
          var i :| 0 <= i < |a.edges| && a.edges[i].other == e.other;
          assert a.edges[i] in a.edges;
          assert Covered(nodes, start, level, a.edges[i]);
        }
      }
    }
  }

  // -------------------------------------------------------------------- a level

  /** The nodes are the runs up to `n` away, right to their links. */
  ghost predicate Found(g: Graph, start: Key, nodes: Nodes, n: nat) {
    && (forall v :: v in nodes <==> v != start && Within(g, start, v, n))
    && (forall v :: v in nodes ==> NodeRight(g, start, v, nodes[v]))
  }

  /** A node at its distance, with the links of the level before and no other, each once. */
  ghost predicate NodeRight(g: Graph, start: Key, v: Key, node: Node) {
    && node.depth > 0 && IsDepth(g, start, v, node.depth) && NoRepeats(node.links)
    && forall l :: l in node.links <==> LinkDue(g, start, v, node.depth, l)
  }

  ghost predicate LinkDue(g: Graph, start: Key, v: Key, depth: nat, l: Link) {
    depth > 0 && exists u :: IsDepth(g, start, u, depth - 1) && HasEdge(g, u, v, l)
  }

  /** What may be said of the nodes when the walk stopped short. */
  ghost predicate NodeSound(g: Graph, start: Key, v: Key, node: Node) {
    && v != start && node.depth > 0 && IsDepth(g, start, v, node.depth) && NoRepeats(node.links)
    && forall l :: l in node.links ==> LinkDue(g, start, v, node.depth, l)
  }

  ghost predicate IsFrontier(g: Graph, start: Key, frontier: set<Key>, n: nat) {
    forall u :: u in frontier <==> IsDepth(g, start, u, n)
  }

  /** A new node of a level is at that level's distance. */
  lemma NewIsSound(g: Graph, start: Key, frontier: set<Key>, level: nat, base: Nodes, v: Key, node: Node)
    requires level > 0 && Found(g, start, base, level - 1) && IsFrontier(g, start, frontier, level - 1)
    requires v !in base && NewRight(g, frontier, start, level, v, node)
    ensures NodeSound(g, start, v, node) && Within(g, start, v, level)
  {
    assert node.links[0] in node.links && From(g, frontier, v, node.links[0]);
    var u :| u in frontier && HasEdge(g, u, v, node.links[0]);
    EdgeLeads(g, u, v, node.links[0]);
    assert !Within(g, start, v, level - 1);
    forall l | l in node.links ensures LinkDue(g, start, v, level, l) {
      var w :| w in frontier && HasEdge(g, w, v, l);
      assert IsDepth(g, start, w, level - 1);
    }
  }

  /** Once every edge of the frontier is covered, the level is found. */
  lemma LevelFound(g: Graph, start: Key, frontier: set<Key>, level: nat, base: Nodes, nodes: Nodes)
    requires level > 0 && Found(g, start, base, level - 1) && IsFrontier(g, start, frontier, level - 1)
    requires LevelRight(g, frontier, start, level, base, nodes)
    requires forall u, v, l :: u in frontier && HasEdge(g, u, v, l) ==> Covered(nodes, start, level, Edge(v, l))
    ensures Found(g, start, nodes, level)
  {
    forall v | v in nodes ensures v != start && Within(g, start, v, level) {
      if v !in base {
        NewIsSound(g, start, frontier, level, base, v, nodes[v]);
      }
    }
    forall v | v != start && Within(g, start, v, level) ensures v in nodes {
      if !Within(g, start, v, level - 1) {
        LastLevelLeads(g, start, v, level - 1);
        var u, l :| IsDepth(g, start, u, level - 1) && HasEdge(g, u, v, l);
        assert Covered(nodes, start, level, Edge(v, l));
      }
    }
    forall v | v in nodes ensures NodeRight(g, start, v, nodes[v]) {
      if v !in base {
        NewIsSound(g, start, frontier, level, base, v, nodes[v]);
        forall l | LinkDue(g, start, v, level, l) ensures l in nodes[v].links {
          var u :| IsDepth(g, start, u, level - 1) && HasEdge(g, u, v, l);
          assert Covered(nodes, start, level, Edge(v, l));
        }
      }
    }
  }

  /** The nodes with an edge taken in. */
  function Taken(nodes: Nodes, e: Edge, level: nat): Nodes {
    if e.other !in nodes then nodes[e.other := Node(level, [e.link])]
    else
      var node := nodes[e.other];
      if node.depth == level && e.link !in node.links
      then nodes[e.other := Node(level, node.links + [e.link])] else nodes
  }

  lemma TakenIsRight(g: Graph, frontier: set<Key>, start: Key, level: nat, base: Nodes, nodes: Nodes, e: Edge)
    requires LevelRight(g, frontier, start, level, base, nodes) && e.other != start
    requires From(g, frontier, e.other, e.link)
    ensures LevelRight(g, frontier, start, level, base, Taken(nodes, e, level))
    ensures Grown(nodes, Taken(nodes, e, level)) && Covered(Taken(nodes, e, level), start, level, e)
  {
    var after := Taken(nodes, e, level);
    forall v | v in after && v !in base ensures NewRight(g, frontier, start, level, v, after[v]) {
      if v != e.other {
        assert NewRight(g, frontier, start, level, v, nodes[v]);
      }
    }
  }

  /** The groups with a batch of a context walked at `level`. */
  function WithContext(groups: WalkedGroups, group: Option<string>, context: Context, level: nat): WalkedGroups {
    groups[group := Walked(level, (if group in groups then groups[group].contexts else {}) + {context})]
  }

  /** Whether a batch adds nothing new: its group walked at an earlier level, or at this one
      with its context. */
  predicate AddsNothing(groups: WalkedGroups, b: Batch, level: nat) {
    && b.group.Some? && b.group.value in groups
    && var w := groups[b.group.value]; w.first < level || b.context in w.contexts
  }

  /** A batch walked adds nothing again at its level, nor does any that added nothing before. */
  lemma WalkedAddsNothing(groups: WalkedGroups, b: Batch, a: Batch, level: nat)
    requires b.group.Some? && !AddsNothing(groups, b, level)
    ensures var after := WithContext(groups, b.group.value, b.context, level);
            AddsNothing(after, b, level) && (AddsNothing(groups, a, level) ==> AddsNothing(after, a, level))
  {
  }

  lemma SkippedIsCovered(g: Graph, start: Key, level: nat, frontier: set<Key>, base: Nodes, nodes: Nodes,
                         groups: WalkedGroups, b: Batch)
    requires GroupsRight(g, start, level, base, nodes, groups) && LevelRight(g, frontier, start, level, base, nodes)
    requires InGraph(g, b) && AddsNothing(groups, b, level)
    ensures CoveredAll(nodes, start, level, b.edges)
  {
    assert WalkedRight(start, level, base, nodes, groups[b.group.value], b);
  }

  lemma WalkedIsRight(g: Graph, start: Key, level: nat, base: Nodes, nodes: Nodes, groups: WalkedGroups, b: Batch)
    requires GroupsRight(g, start, level, base, nodes, groups) && GroupsAgree(g)
    requires InGraph(g, b) && b.group.Some? && !AddsNothing(groups, b, level)
    requires CoveredAll(nodes, start, level, b.edges)
    ensures GroupsRight(g, start, level, base, nodes, WithContext(groups, b.group.value, b.context, level))
  {
    var k, after := b.group.value, WithContext(groups, b.group.value, b.context, level);
    forall a | InGraph(g, a) && a.group.Some? && a.group.value in after
      ensures WalkedRight(start, level, base, nodes, after[a.group.value], a)
    {
      if a.group.value in groups {
        assert WalkedRight(start, level, base, nodes, groups[a.group.value], a);
      }
      if a.group == b.group && a.context == b.context {
        assert Agree(a, b);
        assert forall e :: e in a.edges ==> e in b.edges;
      }
    }
    forall j | j in after ensures exists a :: BatchWalked(g, j, after[j], a) {
      if j == k {
        assert BatchWalked(g, j, after[j], b);
      } else {
        var a :| BatchWalked(g, j, groups[j], a);
        assert BatchWalked(g, j, after[j], a);
      }
    }
  }

  lemma FirstsUpTo(g: Graph, start: Key, level: nat, base: Nodes, nodes: Nodes, groups: WalkedGroups)
    requires GroupsRight(g, start, level, base, nodes, groups)
    ensures forall k :: k in groups ==> groups[k].first <= level
  {
    forall k | k in groups ensures groups[k].first <= level {
      var b :| BatchWalked(g, k, groups[k], b);
      assert WalkedRight(start, level, base, nodes, groups[k], b);
    }
  }

  /** The edges of a run from its first `n` batches are covered. */
  ghost predicate BatchesCovered(nodes: Nodes, start: Key, level: nat, batches: seq<Batch>, n: nat)
    requires n <= |batches|
  {
    forall i :: 0 <= i < n ==> CoveredAll(nodes, start, level, batches[i].edges)
  }

  lemma BatchesStay(was: Nodes, nodes: Nodes, start: Key, level: nat, batches: seq<Batch>, n: nat)
    requires n <= |batches| && Grown(was, nodes) && BatchesCovered(was, start, level, batches, n)
    ensures BatchesCovered(nodes, start, level, batches, n)
  {
    forall i | 0 <= i < n ensures CoveredAll(nodes, start, level, batches[i].edges) {
      CoveredStays(was, nodes, start, level, batches[i].edges);
    }
  }

  lemma BatchInGraph(g: Graph, u: Key, i: nat)
    requires u in g && i < |g[u]|
    ensures InGraph(g, g[u][i])
  {
  }

  lemma OneMoreBatch(nodes: Nodes, start: Key, level: nat, batches: seq<Batch>, i: nat)
    requires i < |batches| && BatchesCovered(nodes, start, level, batches, i)
    requires CoveredAll(nodes, start, level, batches[i].edges)
    ensures BatchesCovered(nodes, start, level, batches, i + 1)
  {
  }

  /** Every edge of the run is covered. */
  ghost predicate RunCovered(g: Graph, nodes: Nodes, start: Key, level: nat, u: Key) {
    u in g ==> BatchesCovered(nodes, start, level, g[u], |g[u]|)
  }

  lemma RunsStay(g: Graph, was: Nodes, nodes: Nodes, start: Key, level: nat, us: set<Key>)
    requires Grown(was, nodes) && forall u :: u in us ==> RunCovered(g, was, start, level, u)
    ensures forall u :: u in us ==> RunCovered(g, nodes, start, level, u)
  {
    forall u | u in us ensures RunCovered(g, nodes, start, level, u) {
      assert RunCovered(g, was, start, level, u);
      if u in g {
        BatchesStay(was, nodes, start, level, g[u], |g[u]|);
      }
    }
  }

  /** Every edge of the runs is covered. */
  ghost predicate RunsCovered(g: Graph, nodes: Nodes, start: Key, level: nat, runs: seq<Key>) {
    forall u :: u in Among(runs) ==> RunCovered(g, nodes, start, level, u)
  }

  lemma OneMoreRun(g: Graph, was: Nodes, nodes: Nodes, start: Key, level: nat, runs: seq<Key>, i: nat)
    requires i < |runs| && Grown(was, nodes) && RunsCovered(g, was, start, level, runs[..i])
    requires RunCovered(g, nodes, start, level, runs[i])
    ensures RunsCovered(g, nodes, start, level, runs[..i + 1])
  {
    RunsStay(g, was, nodes, start, level, Among(runs[..i]));
    assert Among(runs[..i + 1]) == Among(runs[..i]) + {runs[i]};
  }

  lemma NoneYet(g: Graph, nodes: Nodes, start: Key, level: nat, runs: seq<Key>)
    ensures RunsCovered(g, nodes, start, level, runs[..0])
  {
  }

  function Among(keys: seq<Key>): set<Key> { set k | k in keys }

  // ----------------------------------------------------------------- one app's edges

  /** The runs that made what has a digest, as an input logged `logged` links them. */
  function ProducerEdges(app: string, i: Input, made: seq<Entry>): seq<Edge> {
    if made == [] then []
    else
      var rest, e := ProducerEdges(app, i, made[..|made| - 1]), made[|made| - 1];
      if e.Made? then rest + [Edge(Key(app, e.verstr), Link(i.name, e.path, i.logged, Digest))] else rest
  }

  function UpstreamBatch(app: string, i: Input, groups: Groups): Batch {
    match i.source
    case Artifact(of, verstr, path) => Batch(None, Plain, [Edge(Key(of, verstr), Link(i.name, path, i.logged, Uri))])
    case _ =>
      var made := if i.digest.Some? then Held(groups, Producers(i.digest.value)) else [];
      Batch(Some(i.digest), Taking(i.name, i.logged), ProducerEdges(app, i, made))
  }

  /** The runs a row's inputs come from; a registered version is of no run. */
  function Upstream(app: string, inputs: seq<Input>, groups: Groups): seq<Batch> {
    if inputs == [] then []
    else
      var rest, i := Upstream(app, inputs[..|inputs| - 1], groups), inputs[|inputs| - 1];
      if i.source.Registry? then rest else rest + [UpstreamBatch(app, i, groups)]
  }

  /** The runs that took something by digest, from the output at `path`. */
  function ConsumerEdges(app: string, path: string, took: seq<Entry>): seq<Edge> {
    if took == [] then []
    else
      var rest, e := ConsumerEdges(app, path, took[..|took| - 1]), took[|took| - 1];
      if e.Took? then rest + [Edge(Key(app, e.verstr), Link(e.name, path, e.logged, Digest))] else rest
  }

  function NamedEdges(app: string, named: seq<Entry>): seq<Edge> {
    if named == [] then []
    else
      var rest, e := NamedEdges(app, named[..|named| - 1]), named[|named| - 1];
      if e.Named? then rest + [Edge(Key(app, e.verstr), Link(e.name, e.path, e.logged, Uri))] else rest
  }

  function OutputBatch(app: string, o: Output, groups: Groups): Batch {
    var took := if o.digest.Some? then Held(groups, DigestConsumers(o.digest.value)) else [];
    Batch(Some(o.digest), Giving(o.path), ConsumerEdges(app, o.path, took))
  }

  function OutputBatches(app: string, outputs: seq<Output>, groups: Groups): seq<Batch> {
    if outputs == [] then []
    else OutputBatches(app, outputs[..|outputs| - 1], groups) + [OutputBatch(app, outputs[|outputs| - 1], groups)]
  }

  /** The runs that took a row's outputs, by name or by digest. */
  function Downstream(app: string, row: Row, groups: Groups): seq<Batch> {
    [Batch(None, Plain, NamedEdges(app, Held(groups, UriConsumers(app, row.verstr))))]
    + OutputBatches(app, row.outputs, groups)
  }

  function Keys(app: string, rows: map<string, Row>): set<Key> { set v | v in rows :: Key(app, v) }

  function UpstreamGraph(app: string, rows: map<string, Row>, groups: Groups): Graph {
    map k | k in Keys(app, rows) :: Upstream(app, rows[k.verstr].inputs, groups)
  }

  function DownstreamGraph(app: string, rows: map<string, Row>, groups: Groups): Graph {
    map k | k in Keys(app, rows) :: Downstream(app, rows[k.verstr], groups)
  }

  lemma {:induction false} UpstreamFrom(app: string, inputs: seq<Input>, groups: Groups, b: Batch)
    requires b in Upstream(app, inputs, groups)
    ensures exists i :: i in inputs && !i.source.Registry? && b == UpstreamBatch(app, i, groups)
  {
    var init, last := inputs[..|inputs| - 1], inputs[|inputs| - 1];
    if b in Upstream(app, init, groups) {
      UpstreamFrom(app, init, groups, b);
      var i :| i in init && !i.source.Registry? && b == UpstreamBatch(app, i, groups);
      assert i in inputs;
    } else {
      assert last in inputs;
    }
  }

  lemma {:induction false} OutputFrom(app: string, outputs: seq<Output>, groups: Groups, b: Batch)
    requires b in OutputBatches(app, outputs, groups)
    ensures exists o :: o in outputs && b == OutputBatch(app, o, groups)
  {
    var init, last := outputs[..|outputs| - 1], outputs[|outputs| - 1];
    if b in OutputBatches(app, init, groups) {
      OutputFrom(app, init, groups, b);
      var o :| o in init && b == OutputBatch(app, o, groups);
      assert o in outputs;
    } else {
      assert last in outputs;
    }
  }

  /** The runs edges of a digest lead to are the group's, whatever input or output they are
      of; which links depends on that alone. */
  lemma {:induction false} ProducersLead(app: string, i: Input, j: Input, made: seq<Entry>)
    ensures var a, b := ProducerEdges(app, i, made), ProducerEdges(app, j, made);
            |a| == |b| && (forall k :: 0 <= k < |a| ==> a[k].other == b[k].other)
            && (i.name == j.name && i.logged == j.logged ==> a == b)
  {
    if made != [] {
      ProducersLead(app, i, j, made[..|made| - 1]);
    }
  }

  lemma {:induction false} ConsumersLead(app: string, p: string, q: string, took: seq<Entry>)
    ensures var a, b := ConsumerEdges(app, p, took), ConsumerEdges(app, q, took);
            |a| == |b| && (forall k :: 0 <= k < |a| ==> a[k].other == b[k].other) && (p == q ==> a == b)
  {
    if took != [] {
      ConsumersLead(app, p, q, took[..|took| - 1]);
    }
  }

  /** Batches with the same runs in turn agree. */
  lemma SameRunsAgree(a: Batch, b: Batch)
    requires |a.edges| == |b.edges| && forall k :: 0 <= k < |a.edges| ==> a.edges[k].other == b.edges[k].other
    requires a.context == b.context ==> a.edges == b.edges
    ensures Agree(a, b)
  {
    forall v ensures Targets(a, v) <==> Targets(b, v) {
      if Targets(a, v) {
        var i :| 0 <= i < |a.edges| && a.edges[i].other == v;
        assert b.edges[i].other == v;
      }
      if Targets(b, v) {
        var i :| 0 <= i < |b.edges| && b.edges[i].other == v;
        assert a.edges[i].other == v;
      }
    }
  }

  lemma UpstreamAgrees(app: string, rows: map<string, Row>, groups: Groups)
    ensures GroupsAgree(UpstreamGraph(app, rows, groups))
  {
    var g := UpstreamGraph(app, rows, groups);
    forall a, b | InGraph(g, a) && InGraph(g, b) ensures Agree(a, b) {
      if a.group.Some? && a.group == b.group {
        var u :| u in g && a in g[u];
        var v :| v in g && b in g[v];
        UpstreamFrom(app, rows[u.verstr].inputs, groups, a);
        UpstreamFrom(app, rows[v.verstr].inputs, groups, b);
        var i :| i in rows[u.verstr].inputs && !i.source.Registry? && a == UpstreamBatch(app, i, groups);
        var j :| j in rows[v.verstr].inputs && !j.source.Registry? && b == UpstreamBatch(app, j, groups);
        ProducersLead(app, i, j, if i.digest.Some? then Held(groups, Producers(i.digest.value)) else []);
        SameRunsAgree(a, b);
      }
    }
  }

  lemma DownstreamAgrees(app: string, rows: map<string, Row>, groups: Groups)
    ensures GroupsAgree(DownstreamGraph(app, rows, groups))
  {
    var g := DownstreamGraph(app, rows, groups);
    forall a, b | InGraph(g, a) && InGraph(g, b) ensures Agree(a, b) {
      if a.group.Some? && a.group == b.group {
        var u :| u in g && a in g[u];
        var v :| v in g && b in g[v];
        OutputFrom(app, rows[u.verstr].outputs, groups, a);
        OutputFrom(app, rows[v.verstr].outputs, groups, b);
        var o :| o in rows[u.verstr].outputs && a == OutputBatch(app, o, groups);
        var p :| p in rows[v.verstr].outputs && b == OutputBatch(app, p, groups);
        ConsumersLead(app, o.path, p.path, if o.digest.Some? then Held(groups, DigestConsumers(o.digest.value)) else []);
        SameRunsAgree(a, b);
      }
    }
  }

  /** An input's link to a run: the one its URI names, or one of the same app that made
      something of its digest. */
  ghost predicate MadeFor(app: string, rows: seq<Row>, i: Input, v: Key, l: Link) {
    match i.source
    case Artifact(of, verstr, path) => v == Key(of, verstr) && l == Link(i.name, path, i.logged, Uri)
    case Registry => false
    case Other => i.digest.Some? && v.app == app && exists r, o ::
      r in rows && o in r.outputs && r.verstr == v.verstr && o.digest == i.digest
      && l == Link(i.name, o.path, i.logged, Digest)
  }

  lemma {:induction false} ProducersMade(app: string, i: Input, made: seq<Entry>, v: Key, l: Link)
    ensures Edge(v, l) in ProducerEdges(app, i, made) <==>
              v.app == app && l == Link(i.name, l.artifact, i.logged, Digest) && Made(v.verstr, l.artifact) in made
  {
    if made != [] {
      ProducersMade(app, i, made[..|made| - 1], v, l);
      assert forall e :: e in made <==> e in made[..|made| - 1] || e == made[|made| - 1];
    }
  }

  lemma {:induction false} UpstreamHas(app: string, inputs: seq<Input>, groups: Groups, i: Input)
    requires i in inputs && !i.source.Registry?
    ensures UpstreamBatch(app, i, groups) in Upstream(app, inputs, groups)
  {
    if i != inputs[|inputs| - 1] {
      UpstreamHas(app, inputs[..|inputs| - 1], groups, i);
    }
  }

  /** An input's batch has an edge just when the rows say so. */
  lemma BatchIsJoin(app: string, rows: seq<Row>, groups: Groups, i: Input, v: Key, l: Link)
    requires Indexes(groups, rows) && !i.source.Registry?
    ensures Edge(v, l) in UpstreamBatch(app, i, groups).edges <==> MadeFor(app, rows, i, v, l)
  {
    if i.source.Other? && i.digest.Some? {
      var g, e := Producers(i.digest.value), Made(v.verstr, l.artifact);
      assert GroupRight(groups, rows, g);
      ProducersMade(app, i, Held(groups, g), v, l);
      GroupHolds(rows, g, e);
      forall r | r in rows
        ensures e in EntriesIn(r, g) <==>
                  exists o :: o in r.outputs && r.verstr == v.verstr && o.digest == i.digest && o.path == l.artifact
      {
        EntriesSay(r, g, e);
        forall o | o in r.outputs ensures AddsOutput(r.verstr, o, Addition(g, e)) <==>
          r.verstr == v.verstr && o.digest == i.digest && o.path == l.artifact {
        }
      }
    }
  }

  /** The edges up from a run are the join over the rows: an input and what made it. */
  lemma UpstreamIsJoin(app: string, rows: seq<Row>, groups: Groups, u: string, v: Key, l: Link)
    requires InOrder(rows) && Indexes(groups, rows) && u in ByVerstr(rows)
    ensures HasEdge(UpstreamGraph(app, ByVerstr(rows), groups), Key(app, u), v, l) <==>
              exists i :: i in ByVerstr(rows)[u].inputs && MadeFor(app, rows, i, v, l)
  {
    var g, inputs := UpstreamGraph(app, ByVerstr(rows), groups), ByVerstr(rows)[u].inputs;
    var batches := g[Key(app, u)];
    if HasEdge(g, Key(app, u), v, l) {
      var n :| 0 <= n < |batches| && Edge(v, l) in batches[n].edges;
      UpstreamFrom(app, inputs, groups, batches[n]);
      var i :| i in inputs && !i.source.Registry? && batches[n] == UpstreamBatch(app, i, groups);
      BatchIsJoin(app, rows, groups, i, v, l);
    }
    if i :| i in inputs && MadeFor(app, rows, i, v, l) {
      BatchIsJoin(app, rows, groups, i, v, l);
      UpstreamHas(app, inputs, groups, i);
      var n :| 0 <= n < |batches| && batches[n] == UpstreamBatch(app, i, groups);
    }
  }

  /** A run takes output `o` of a row by digest, or something of the row by name. */
  ghost predicate TookOutput(rows: seq<Row>, o: Output, v: string, l: Link) {
    o.digest.Some? && exists r, i ::
      r in rows && i in r.inputs && r.verstr == v && i.source.Other? && i.digest == o.digest
      && l == Link(i.name, o.path, i.logged, Digest)
  }

  ghost predicate TookByName(app: string, rows: seq<Row>, u: string, v: string, l: Link) {
    exists r, i ::
      r in rows && i in r.inputs && r.verstr == v && i.source == Artifact(app, u, l.artifact)
      && l == Link(i.name, l.artifact, i.logged, Uri)
  }

  lemma {:induction false} ConsumersTook(app: string, path: string, took: seq<Entry>, v: Key, l: Link)
    ensures Edge(v, l) in ConsumerEdges(app, path, took) <==>
              v.app == app && l == Link(l.input, path, l.digest, Digest) && Took(v.verstr, l.input, l.digest) in took
  {
    if took != [] {
      ConsumersTook(app, path, took[..|took| - 1], v, l);
      assert forall e :: e in took <==> e in took[..|took| - 1] || e == took[|took| - 1];
    }
  }

  lemma {:induction false} NamedTook(app: string, named: seq<Entry>, v: Key, l: Link)
    ensures Edge(v, l) in NamedEdges(app, named) <==>
              v.app == app && l.via == Uri && Named(v.verstr, l.input, l.digest, l.artifact) in named
  {
    if named != [] {
      NamedTook(app, named[..|named| - 1], v, l);
      assert forall e :: e in named <==> e in named[..|named| - 1] || e == named[|named| - 1];
    }
  }

  lemma {:induction false} OutputHas(app: string, outputs: seq<Output>, groups: Groups, o: Output)
    requires o in outputs
    ensures OutputBatch(app, o, groups) in OutputBatches(app, outputs, groups)
  {
    if o != outputs[|outputs| - 1] {
      OutputHas(app, outputs[..|outputs| - 1], groups, o);
    }
  }

  /** An output's batch has an edge just when the rows say so. */
  lemma OutputIsJoin(app: string, rows: seq<Row>, groups: Groups, o: Output, v: Key, l: Link)
    requires Indexes(groups, rows)
    ensures Edge(v, l) in OutputBatch(app, o, groups).edges <==> v.app == app && TookOutput(rows, o, v.verstr, l)
  {
    if o.digest.Some? {
      var g, e := DigestConsumers(o.digest.value), Took(v.verstr, l.input, l.digest);
      assert GroupRight(groups, rows, g);
      ConsumersTook(app, o.path, Held(groups, g), v, l);
      GroupHolds(rows, g, e);
      forall r | r in rows
        ensures e in EntriesIn(r, g) <==>
                  exists i :: i in r.inputs && r.verstr == v.verstr && i.source.Other? && i.digest == o.digest
                              && i.name == l.input && i.logged == l.digest
      {
        EntriesSay(r, g, e);
        forall i | i in r.inputs ensures AddsInput(r.verstr, i, Addition(g, e)) <==>
          r.verstr == v.verstr && i.source.Other? && i.digest == o.digest && i.name == l.input && i.logged == l.digest {
        }
      }
    }
  }

  /** So has the batch of what was taken by name. */
  lemma NamedIsJoin(app: string, rows: seq<Row>, groups: Groups, u: string, v: Key, l: Link)
    requires Indexes(groups, rows)
    ensures Edge(v, l) in NamedEdges(app, Held(groups, UriConsumers(app, u))) <==>
              v.app == app && TookByName(app, rows, u, v.verstr, l)
  {
    var g, e := UriConsumers(app, u), Named(v.verstr, l.input, l.digest, l.artifact);
    assert GroupRight(groups, rows, g);
    NamedTook(app, Held(groups, g), v, l);
    GroupHolds(rows, g, e);
    forall r | r in rows
      ensures e in EntriesIn(r, g) <==>
                exists i :: i in r.inputs && r.verstr == v.verstr && i.source == Artifact(app, u, l.artifact)
                            && i.name == l.input && i.logged == l.digest
    {
      EntriesSay(r, g, e);
      forall i | i in r.inputs ensures AddsInput(r.verstr, i, Addition(g, e)) <==>
        r.verstr == v.verstr && i.source == Artifact(app, u, l.artifact) && i.name == l.input && i.logged == l.digest {
      }
    }
  }

  /** An edge is in one of a run's batches: what was taken by name, or one of its outputs'. */
  lemma DownstreamHas(app: string, row: Row, groups: Groups, x: Edge)
    ensures (exists b :: b in Downstream(app, row, groups) && x in b.edges) <==>
              (x in NamedEdges(app, Held(groups, UriConsumers(app, row.verstr)))
              || exists o :: o in row.outputs && x in OutputBatch(app, o, groups).edges)
  {
    hide OutputBatch, NamedEdges;
    var named := Batch(None, Plain, NamedEdges(app, Held(groups, UriConsumers(app, row.verstr))));
    var outs := OutputBatches(app, row.outputs, groups);
    assert Downstream(app, row, groups) == [named] + outs;
    forall b | b in outs && x in b.edges ensures exists o :: o in row.outputs && x in OutputBatch(app, o, groups).edges {
      OutputFrom(app, row.outputs, groups, b);
    }
    forall o | o in row.outputs ensures OutputBatch(app, o, groups) in outs { OutputHas(app, row.outputs, groups, o); }
    assert named in [named];
  }

  lemma EdgeInBatch(g: Graph, u: Key, v: Key, l: Link)
    requires u in g
    ensures HasEdge(g, u, v, l) <==> exists b :: b in g[u] && Edge(v, l) in b.edges
  {
    if b :| b in g[u] && Edge(v, l) in b.edges {
      var n :| 0 <= n < |g[u]| && g[u][n] == b;
    }
  }

  /** The edges down from a run are the join over the rows: what took it by name, or one of
      its outputs by digest. */
  lemma DownstreamIsJoin(app: string, rows: seq<Row>, groups: Groups, u: string, v: Key, l: Link)
    requires InOrder(rows) && Indexes(groups, rows) && u in ByVerstr(rows)
    ensures HasEdge(DownstreamGraph(app, ByVerstr(rows), groups), Key(app, u), v, l) <==>
              v.app == app && (TookByName(app, rows, u, v.verstr, l)
                               || exists o :: o in ByVerstr(rows)[u].outputs && TookOutput(rows, o, v.verstr, l))
  {
    var g, row := DownstreamGraph(app, ByVerstr(rows), groups), ByVerstr(rows)[u];
    VerstrKept(rows, u);
    assert g[Key(app, u)] == Downstream(app, row, groups);
    EdgeInBatch(g, Key(app, u), v, l);
    hide *;
    NamedIsJoin(app, rows, groups, u, v, l);
    DownstreamHas(app, row, groups, Edge(v, l));
    forall o ensures Edge(v, l) in OutputBatch(app, o, groups).edges <==> v.app == app && TookOutput(rows, o, v.verstr, l) {
      OutputIsJoin(app, rows, groups, o, v, l);
    }
  }

  lemma {:induction false} VerstrKept(rows: seq<Row>, u: string)
    requires u in ByVerstr(rows)
    ensures ByVerstr(rows)[u].verstr == u
  {
    if rows[|rows| - 1].verstr != u { VerstrKept(rows[..|rows| - 1], u); }
  }

  // -------------------------------------------------------------------- the walk

  class Walk {
    const graph: Graph
    const start: Key
    const limit: nat
    var nodes: Nodes
    /** The nodes as found. */
    var order: seq<Key>
    var truncated: bool
    var groups: WalkedGroups

    constructor (graph: Graph, start: Key, limit: nat)
      ensures this.graph == graph && this.start == start && this.limit == limit
      ensures nodes == map[] && order == [] && !truncated && groups == map[]
    {
      this.graph, this.start, this.limit := graph, start, limit;
      nodes, order, truncated, groups := map[], [], false, map[];
    }

    /** The nodes as listed, no more than the limit. */
    ghost predicate Listed()
      reads this`nodes, this`order
    {
      NoRepeats(order) && (forall v :: v in order <==> v in nodes) && |order| == |nodes| <= limit
    }

    /** Within a level: `base` is what was found before it, `frontier` the last level, `known`
        the groups walked. */
    ghost predicate Expanding(frontier: set<Key>, level: nat, base: Nodes, known: WalkedGroups)
      reads this`nodes, this`order
    {
      && Listed() && level > 0
      && LevelRight(graph, frontier, start, level, base, nodes)
      && GroupsRight(graph, start, level, base, nodes, known)
    }

    /** There is no room for the run an edge of `frontier` leads to. */
    ghost predicate Full(frontier: set<Key>)
      reads this`nodes
    {
      |nodes| == limit && exists u, v, l :: u in frontier && HasEdge(graph, u, v, l) && v != start && v !in nodes
    }

    /** Takes one edge in; false when its run is one past the limit. */
    method Take(u: Key, e: Edge, level: nat, ghost frontier: set<Key>, ghost base: Nodes, ghost known: WalkedGroups)
      returns (room: bool)
      requires Expanding(frontier, level, base, known)
      requires u in frontier && HasEdge(graph, u, e.other, e.link)
      modifies this`nodes, this`order
      ensures Expanding(frontier, level, base, known) && Grown(old(nodes), nodes)
      ensures room ==> Covered(nodes, start, level, e)
      ensures !room ==> Full(frontier) && nodes == old(nodes) && order == old(order)
      ensures old(order) <= order
    {
      if e.other == start {
        return true;
      }
      if e.other !in nodes && |nodes| >= limit {
        return false;
      }
      ghost var was := nodes;
      TakenIsRight(graph, frontier, start, level, base, nodes, e);
      if e.other !in nodes {
        nodes := nodes[e.other := Node(level, [e.link])];
        order := order + [e.other];
      } else if nodes[e.other].depth == level && e.link !in nodes[e.other].links {
        nodes := nodes[e.other := Node(level, nodes[e.other].links + [e.link])];
      }
      assert nodes == Taken(was, e, level);
      GroupsStayRight(graph, start, level, base, was, nodes, known);
      return true;
    }

    /** Notes a batch as walked; whether it adds nothing new. */
    method Skips(b: Batch, level: nat) returns (skip: bool)
      requires forall k :: k in groups ==> groups[k].first <= level
      modifies this`groups
      ensures skip == AddsNothing(old(groups), b, level)
      ensures groups == if skip || b.group.None? then old(groups) else WithContext(old(groups), b.group.value, b.context, level)
    {
      if b.group.None? {
        return false;
      }
      var k := b.group.value;
      var w := if k in groups then groups[k] else Walked(level, {});
      if w.first < level || b.context in w.contexts {
        return true;
      }
      groups := groups[k := w.(contexts := w.contexts + {b.context})];
      return false;
    }

    /** Walks a batch's edges; false when the limit ends it. */
    method WalkBatch(u: Key, b: Batch, level: nat, ghost frontier: set<Key>, ghost base: Nodes,
                     ghost known: WalkedGroups)
      returns (room: bool)
      requires Expanding(frontier, level, base, known) && u in frontier && u in graph && b in graph[u]
      modifies this`nodes, this`order
      ensures Expanding(frontier, level, base, known) && Grown(old(nodes), nodes)
      ensures room ==> CoveredAll(nodes, start, level, b.edges)
      ensures !room ==> Full(frontier)
      ensures old(order) <= order
    {
      for i := 0 to |b.edges|
        invariant Expanding(frontier, level, base, known) && Grown(old(nodes), nodes)
        invariant CoveredAll(nodes, start, level, b.edges[..i])
        invariant old(order) <= order
      {
        var e := b.edges[i];
        assert HasEdge(graph, u, e.other, e.link);
        ghost var was := nodes;
        room := Take(u, e, level, frontier, base, known);
        if !room {
          return;
        }
        CoveredMore(was, nodes, start, level, b.edges, i);
      }
      assert b.edges[..|b.edges|] == b.edges;
      room := true;
    }

    /** Expands one run of the frontier; false when the limit ends it. */
    method ExpandRun(u: Key, level: nat, ghost frontier: set<Key>, ghost base: Nodes) returns (room: bool)
      requires Expanding(frontier, level, base, groups) && u in frontier && GroupsAgree(graph)
      modifies this`nodes, this`order, this`groups
      ensures Listed() && LevelRight(graph, frontier, start, level, base, nodes)
      ensures room ==> Expanding(frontier, level, base, groups) && RunCovered(graph, nodes, start, level, u)
      ensures !room ==> Full(frontier)
      ensures Grown(old(nodes), nodes) && old(order) <= order
    {
      if u !in graph {
        return true;
      }
      var batches := graph[u];
      for i := 0 to |batches|
        invariant Expanding(frontier, level, base, groups) && Grown(old(nodes), nodes)
        invariant BatchesCovered(nodes, start, level, batches, i)
        invariant old(order) <= order
      {
        room := ExpandBatch(u, i, level, frontier, base);
        if !room {
          return;
        }
      }
      room := true;
    }

    /** Walks batch `i` of a run unless it adds nothing new. */
    method ExpandBatch(u: Key, i: nat, level: nat, ghost frontier: set<Key>, ghost base: Nodes) returns (room: bool)
      requires Expanding(frontier, level, base, groups) && u in frontier && GroupsAgree(graph)
      requires u in graph && i < |graph[u]| && BatchesCovered(nodes, start, level, graph[u], i)
      modifies this`nodes, this`order, this`groups
      ensures Listed() && LevelRight(graph, frontier, start, level, base, nodes)
      ensures room ==> Expanding(frontier, level, base, groups) && BatchesCovered(nodes, start, level, graph[u], i + 1)
      ensures !room ==> Full(frontier)
      ensures Grown(old(nodes), nodes) && old(order) <= order
    {
      hide *;
      var b := graph[u][i];
      ghost var known, was := groups, nodes;
      BatchInGraph(graph, u, i);
      ExpandingParts(frontier, level, base);
      FirstsUpTo(graph, start, level, base, nodes, groups);
      var skip := Skips(b, level);
      if skip {
        SkippedIsCovered(graph, start, level, frontier, base, nodes, known, b);
        SameGrown(nodes);
        OneMoreBatch(nodes, start, level, graph[u], i);
        return true;
      }
      room := WalkBatch(u, b, level, frontier, base, known);
      ExpandingOn(frontier, level, base, known);
      if room {
        BatchesStay(was, nodes, start, level, graph[u], i);
        OneMoreBatch(nodes, start, level, graph[u], i);
        if b.group.Some? {
          WalkedIsRight(graph, start, level, base, nodes, known, b);
        }
        ExpandingAgain(frontier, level, base);
      }
    }

    lemma ExpandingOn(frontier: set<Key>, level: nat, base: Nodes, known: WalkedGroups)
      requires Expanding(frontier, level, base, known)
      ensures Listed() && level > 0 && LevelRight(graph, frontier, start, level, base, nodes)
      ensures GroupsRight(graph, start, level, base, nodes, known)
    {
    }

    lemma ExpandingAgain(frontier: set<Key>, level: nat, base: Nodes)
      requires Listed() && level > 0 && LevelRight(graph, frontier, start, level, base, nodes)
      requires GroupsRight(graph, start, level, base, nodes, groups)
      ensures Expanding(frontier, level, base, groups)
    {
    }

    /** The walk stopped at its limit: all it found is right, and there is one more run. */
    ghost predicate Short(n: nat)
      reads this`nodes
    {
      && |nodes| == limit
      && (forall v :: v in nodes ==> NodeSound(graph, start, v, nodes[v]) && nodes[v].depth <= n)
      && exists v :: v != start && v !in nodes && Within(graph, start, v, n)
    }

    /** The runs the frontier reaches first; stops at the first past the limit. */
    method Expand(frontier: seq<Key>, level: nat) returns (found: seq<Key>)
      requires Listed() && !truncated && level > 0 && GroupsAgree(graph)
      requires Found(graph, start, nodes, level - 1) && IsFrontier(graph, start, Among(frontier), level - 1)
      requires forall v :: v in nodes ==> nodes[v].depth < level
      requires GroupsRight(graph, start, level, nodes, nodes, groups)
      modifies this
      ensures Listed()
      ensures !truncated ==>
        && Found(graph, start, nodes, level) && IsFrontier(graph, start, Among(found), level)
        && (forall v :: v in nodes ==> nodes[v].depth <= level)
        && GroupsRight(graph, start, level + 1, nodes, nodes, groups)
      ensures truncated ==> Short(level)
    {
      hide *;
      ghost var base, last := nodes, Among(frontier);
      var before := |order|;
      LevelBegins(last, level);
      var room := ExpandRuns(frontier, level, base);
      found := order[before..];
      if room {
        LevelEnds(old(order), frontier, level, base, found);
      } else {
        StoppedShort(last, level, base);
        truncated := true;
      }
    }

    /** Expands the runs of the frontier in turn; false when the limit ends it. */
    method ExpandRuns(frontier: seq<Key>, level: nat, ghost base: Nodes) returns (room: bool)
      requires Expanding(Among(frontier), level, base, groups) && GroupsAgree(graph)
      modifies this`nodes, this`order, this`groups
      ensures Listed() && LevelRight(graph, Among(frontier), start, level, base, nodes)
      ensures room ==> GroupsRight(graph, start, level, base, nodes, groups)
      ensures room ==> RunsCovered(graph, nodes, start, level, frontier)
      ensures !room ==> Full(Among(frontier))
      ensures old(order) <= order
    {
      hide *;
      ghost var last := Among(frontier);
      NoneYet(graph, nodes, start, level, frontier);
      for i := 0 to |frontier|
        invariant Expanding(last, level, base, groups)
        invariant RunsCovered(graph, nodes, start, level, frontier[..i])
        invariant old(order) <= order
      {
        ghost var was := nodes;
        AmongAt(frontier, i);
        room := ExpandRun(frontier[i], level, last, base);
        if !room {
          return;
        }
        OneMoreRun(graph, was, nodes, start, level, frontier, i);
      }
      assert frontier[..|frontier|] == frontier;
      ExpandingParts(last, level, base);
      room := true;
    }

    lemma AmongAt(frontier: seq<Key>, i: nat)
      requires i < |frontier|
      ensures frontier[i] in Among(frontier)
    {
    }

    lemma ExpandingParts(frontier: set<Key>, level: nat, base: Nodes)
      requires Expanding(frontier, level, base, groups)
      ensures Listed() && LevelRight(graph, frontier, start, level, base, nodes)
      ensures GroupsRight(graph, start, level, base, nodes, groups)
    {
    }

    lemma LevelBegins(frontier: set<Key>, level: nat)
      requires Listed() && level > 0 && GroupsRight(graph, start, level, nodes, nodes, groups)
      requires forall v :: v in nodes ==> nodes[v].depth < level
      ensures Expanding(frontier, level, nodes, groups)
      ensures forall v :: v in order <==> v in nodes
    {
    }

    /** A level all expanded. */
    lemma LevelEnds(was: seq<Key>, frontier: seq<Key>, level: nat, base: Nodes, found: seq<Key>)
      requires level > 0 && GroupsAgree(graph) && Listed() && was <= order && found == order[|was|..]
      requires forall v :: v in was <==> v in base
      requires Found(graph, start, base, level - 1) && IsFrontier(graph, start, Among(frontier), level - 1)
      requires LevelRight(graph, Among(frontier), start, level, base, nodes)
      requires GroupsRight(graph, start, level, base, nodes, groups)
      requires RunsCovered(graph, nodes, start, level, frontier)
      ensures Found(graph, start, nodes, level) && IsFrontier(graph, start, Among(found), level)
      ensures forall v :: v in nodes ==> nodes[v].depth <= level
      ensures GroupsRight(graph, start, level + 1, nodes, nodes, groups)
    {
      LevelDone(Among(frontier), level, base);
      GroupsNextLevel(graph, start, level, base, nodes, groups);
      FoundIsLevel(was, base, found, level);
      forall v | v in nodes ensures nodes[v].depth <= level {
        assert v in base || NewRight(graph, Among(frontier), start, level, v, nodes[v]);
      }
    }

    lemma StoppedShort(frontier: set<Key>, level: nat, base: Nodes)
      requires level > 0 && Full(frontier) && LevelRight(graph, frontier, start, level, base, nodes)
      requires Found(graph, start, base, level - 1) && IsFrontier(graph, start, frontier, level - 1)
      ensures Short(level)
    {
      var u, v, l :| u in frontier && HasEdge(graph, u, v, l) && v != start && v !in nodes;
      EdgeLeads(graph, u, v, l);
      assert Within(graph, start, v, level);
      forall x | x in nodes ensures NodeSound(graph, start, x, nodes[x]) && nodes[x].depth <= level {
        if x in base {
          assert NodeRight(graph, start, x, base[x]);
        } else {
          NewIsSound(graph, start, frontier, level, base, x, nodes[x]);
        }
      }
    }

    lemma LevelDone(frontier: set<Key>, level: nat, base: Nodes)
      requires level > 0 && Found(graph, start, base, level - 1) && IsFrontier(graph, start, frontier, level - 1)
      requires LevelRight(graph, frontier, start, level, base, nodes)
      requires forall u :: u in frontier ==> RunCovered(graph, nodes, start, level, u)
      ensures Found(graph, start, nodes, level)
    {
      forall u, v, l | u in frontier && HasEdge(graph, u, v, l) ensures Covered(nodes, start, level, Edge(v, l)) {
        assert RunCovered(graph, nodes, start, level, u);
      }
      LevelFound(graph, start, frontier, level, base, nodes);
    }

    /** What a level appended to the order is what it found. */
    lemma AppendedIsNew(was: seq<Key>, v: Key)
      requires Listed() && was <= order
      ensures v in order[|was|..] <==> v in nodes && v !in was
    {
      var found := order[|was|..];
      if v in found {
        var i :| 0 <= i < |found| && found[i] == v;
        assert order[|was| + i] == v;
        assert forall j :: 0 <= j < |was| ==> was[j] == order[j] && order[j] != order[|was| + i];
      }
      if v in nodes && v !in was {
        var k :| 0 <= k < |order| && order[k] == v;
        assert forall j :: 0 <= j < |was| ==> was[j] == order[j];
        assert found[k - |was|] == v;
      }
    }

    /** And that is the next frontier. */
    lemma FoundIsLevel(was: seq<Key>, base: Nodes, found: seq<Key>, level: nat)
      requires Listed() && was <= order && found == order[|was|..] && level > 0
      requires forall v :: v in was <==> v in base
      requires Found(graph, start, base, level - 1) && Found(graph, start, nodes, level)
      ensures IsFrontier(graph, start, Among(found), level)
    {
      WithinMore(graph, start, start, 0, level - 1);
      forall v ensures v in Among(found) <==> IsDepth(graph, start, v, level) {
        AppendedIsNew(was, v);
      }
    }

    /** Walks to `depth` levels at most. */
    method Run(depth: nat) returns (result: seq<Key>)
      requires GroupsAgree(graph) && depth > 0
      requires nodes == map[] && order == [] && !truncated && groups == map[]
      modifies this
      ensures Listed() && result == order
      ensures !truncated ==> Found(graph, start, nodes, depth)
      ensures truncated ==> Short(depth)
    {
      var frontier := [start];
      Begin();
      var level := 1;
      while level <= depth
        invariant 1 <= level <= depth + 1 && Listed() && !truncated
        invariant Found(graph, start, nodes, level - 1) && IsFrontier(graph, start, Among(frontier), level - 1)
        invariant forall v :: v in nodes ==> nodes[v].depth < level
        invariant GroupsRight(graph, start, level, nodes, nodes, groups)
      {
        frontier := Expand(frontier, level);
        if frontier == [] || truncated {
          if truncated {
            ShortOf(level, depth);
          } else {
            NothingMore(level, depth);
          }
          return order;
        }
        level := level + 1;
      }
      return order;
    }

    lemma Begin()
      requires nodes == map[] && groups == map[]
      ensures Found(graph, start, nodes, 0) && IsFrontier(graph, start, Among([start]), 0)
      ensures GroupsRight(graph, start, 1, nodes, nodes, groups)
    {
    }

    lemma ShortOf(n: nat, m: nat)
      requires n <= m && Short(n)
      ensures Short(m)
    {
      var v :| v != start && v !in nodes && Within(graph, start, v, n);
      WithinMore(graph, start, v, n, m);
    }

    lemma NothingMore(n: nat, m: nat)
      requires 0 < n <= m && Found(graph, start, nodes, n) && IsFrontier(graph, start, Among([]), n)
      ensures Found(graph, start, nodes, m)
    {
      forall u ensures !IsDepth(graph, start, u, n) {
        assert u !in Among([]);
      }
      forall v ensures v in nodes <==> v != start && Within(graph, start, v, m) {
        if Within(graph, start, v, n) {
          WithinMore(graph, start, v, n, m);
        }
        if Within(graph, start, v, m) {
          NothingFurther(graph, start, v, n, m);
        }
      }
    }
  }

  /** The walks up and down from a run of one app's index; None when there is no such run. */
  method Resolve(app: string, verstr: string, index: LineageIndex, depth: int, limit: nat)
    returns (walks: Option<(Walk, Walk)>)
    ensures walks.None? <==> verstr !in index.rows
    ensures walks.Some? ==>
      && Resolved(walks.value.0, UpstreamGraph(app, index.rows, index.groups), app, verstr, limit, AtLeastOne(depth))
      && Resolved(walks.value.1, DownstreamGraph(app, index.rows, index.groups), app, verstr, limit, AtLeastOne(depth))
  {
    if verstr !in index.rows {
      return None;
    }
    var up := new Walk(UpstreamGraph(app, index.rows, index.groups), Key(app, verstr), limit);
    var down := new Walk(DownstreamGraph(app, index.rows, index.groups), Key(app, verstr), limit);
    UpstreamAgrees(app, index.rows, index.groups);
    DownstreamAgrees(app, index.rows, index.groups);
    var upstream := up.Run(AtLeastOne(depth));
    var downstream := down.Run(AtLeastOne(depth));
    return Some((up, down));
  }

  function AtLeastOne(depth: int): (levels: nat)
    ensures levels >= 1 && levels >= depth && (levels == 1 || levels == depth)
  {
    if depth < 1 then 1 else depth
  }

  /** A walk ended as it should: all there is within `depth`, or cut short at the limit. */
  ghost predicate Resolved(w: Walk, g: Graph, app: string, verstr: string, limit: nat, depth: nat)
    reads w
  {
    && w.graph == g && w.start == Key(app, verstr) && w.limit == limit && w.Listed()
    && (if w.truncated then w.Short(depth) else Found(g, w.start, w.nodes, depth))
  }
}

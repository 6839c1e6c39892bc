/** Values and specification functions of the analysis-side provenance
    graph: W3C PROV nodes (entities, activities, agents) joined by typed
    relation edges, kept acyclic. The graph library's vertex set is a map
    from uuid to node (the store never holds two nodes with one uuid), and
    its edge set is a map from the ordered pair of end-point uuids to the
    edge label (at most one edge per ordered pair). */
module ProvGraphSpec {
  import opened Wrappers
  import opened Reachability
  import opened JavaStrings

  /** A vertex: its uuid, its PROV type ("entity", "activity" or "agent"),
      the raw value and the timestamp, all as text. */
  datatype Node = Node(uuid: string, kind: string, value: string, ts: string)

  /** An edge label: the PROV relation name, a value and a timestamp. */
  datatype Edge = Edge(kind: string, value: string, ts: string)

  /** An edge removed from the graph while a dependency query runs. */
  datatype StashedEdge = StashedEdge(from: Node, to: Node, edge: Edge)

  function PairOf(s: StashedEdge): Pair
  {
    (s.from.uuid, s.to.uuid)
  }

  /** Nodes are filed under their own uuid, every edge joins two nodes of
      the graph, and the edges form no cycle. */
  ghost predicate GraphOk(nodes: map<string, Node>, edges: map<Pair, Edge>)
  {
    (forall k :: k in nodes ==> nodes[k].uuid == k) &&
    (forall p :: p in edges ==> p.0 in nodes && p.1 in nodes) &&
    Acyclic(edges.Keys)
  }

  /** The edge map after `addEdge(from, to, e)`: a self-loop is refused, an
      edge already joining the pair is replaced, and a new edge is added only
      when both end points are in the graph and `from` is not reachable from
      `to` (the library refuses an edge that would close a cycle). */
  function AddedEdges(nodes: map<string, Node>, edges: map<Pair, Edge>,
                      from: string, to: string, e: Edge): map<Pair, Edge>
  {
    if from == to then edges
    else if (from, to) in edges then edges[(from, to) := e]
    else if from !in nodes || to !in nodes then edges
    else if from in Closure(edges.Keys, {to}) then edges
    else edges[(from, to) := e]
  }

  /** `addEdge` keeps the graph well formed: in particular it never closes a cycle. */
  lemma AddedEdgesOk(nodes: map<string, Node>, edges: map<Pair, Edge>,
                     from: string, to: string, e: Edge)
    requires GraphOk(nodes, edges)
    ensures GraphOk(nodes, AddedEdges(nodes, edges, from, to, e))
  {
    var r := AddedEdges(nodes, edges, from, to, e);
    if from != to && (from, to) in edges {
      assert r.Keys == edges.Keys;
    } else if from != to && from in nodes && to in nodes && from !in Closure(edges.Keys, {to}) {
      assert r.Keys == edges.Keys + {(from, to)};
      AddEdgeKeepsAcyclic(edges.Keys, from, to);
    }
  }

  /** Between two distinct nodes of the graph, `addEdge` installs its edge
      exactly when the graph with that edge is still acyclic; otherwise
      nothing changes. */
  lemma AddedEdgesIffAcyclic(nodes: map<string, Node>, edges: map<Pair, Edge>,
                             from: string, to: string, e: Edge)
    requires GraphOk(nodes, edges)
    requires from in nodes && to in nodes && from != to
    ensures (AddedEdges(nodes, edges, from, to, e) == edges[(from, to) := e]) <==>
            Acyclic(edges.Keys + {(from, to)})
    ensures !Acyclic(edges.Keys + {(from, to)}) ==> AddedEdges(nodes, edges, from, to, e) == edges
  {
    var E' := edges.Keys + {(from, to)};
    if (from, to) in edges {
      assert E' == edges.Keys;
    } else if from in Closure(edges.Keys, {to}) {
      if Acyclic(E') {
        EdgeNotReversed(E', from, to);
        ClosureMonoEdges(edges.Keys, E', {to});
        assert false;
      }
      assert (from, to) !in edges;
      assert (from, to) in edges[(from, to) := e];
    } else {
      AddEdgeKeepsAcyclic(edges.Keys, from, to);
    }
  }

  /** The edges that do not describe a dependency and that queries set aside. */
  predicate IsNonDependency(e: Edge)
  {
    e.kind == "wasRevisionOf" || e.kind == "invalidates"
  }

  function DependencyEdges(edges: map<Pair, Edge>): map<Pair, Edge>
  {
    map p | p in edges && !IsNonDependency(edges[p]) :: edges[p]
  }

  function NonDependencyEdges(edges: map<Pair, Edge>): map<Pair, Edge>
  {
    map p | p in edges && IsNonDependency(edges[p]) :: edges[p]
  }

  /** The edge map after popping every entry of `stack`, last entry first,
      and adding it back with `addEdge`. */
  function Unstashed(nodes: map<string, Node>, edges: map<Pair, Edge>,
                     stack: seq<StashedEdge>): map<Pair, Edge>
    decreases |stack|
  {
    if stack == [] then edges
    else
      var top := stack[|stack| - 1];
      Unstashed(nodes, AddedEdges(nodes, edges, top.from.uuid, top.to.uuid, top.edge),
                stack[..|stack| - 1])
  }

  /** The pairs named by a list of stashed edges. */
  function StackPairs(stack: seq<StashedEdge>): set<Pair>
  {
    set i | 0 <= i < |stack| :: PairOf(stack[i])
  }

  /** `part` lists every edge of `removed` once, with that edge's end point
      nodes taken from `nodes`. */
  ghost predicate ListsEdges(part: seq<StashedEdge>, nodes: map<string, Node>,
                             removed: map<Pair, Edge>)
  {
    (forall i :: 0 <= i < |part| ==>
       PairOf(part[i]) in removed && removed[PairOf(part[i])] == part[i].edge &&
       part[i].from.uuid in nodes && nodes[part[i].from.uuid] == part[i].from &&
       part[i].to.uuid in nodes && nodes[part[i].to.uuid] == part[i].to) &&
    (forall i, j :: 0 <= i < j < |part| ==> PairOf(part[i]) != PairOf(part[j])) &&
    StackPairs(part) == removed.Keys
  }

  /** The fail-fast iterator's `ConcurrentModificationException`. */
  datatype IterationError = ConcurrentModification

  /** `stashNonDependencyEdges` as written: the loop walks the library's
      live edge view in the order `order` and removes each revision or
      invalidation edge from that same view. The view's iterator is
      fail-fast, so once an edge has been removed the next step throws;
      only a removal of the last edge visited goes unnoticed. The result is
      the edge map the loop leaves when it runs to the end. */
  function StashLive(edges: map<Pair, Edge>, order: seq<Pair>): (r: Result<map<Pair, Edge>, IterationError>)
    ensures r.Err? <==>
              exists i :: 0 <= i < |order| - 1 && order[i] in edges && IsNonDependency(edges[order[i]])
    decreases |order|
  {
    if order == [] then Ok(edges)
    else
      var p := order[0];
      if p in edges && IsNonDependency(edges[p]) then
        if |order| > 1 then Err(ConcurrentModification) else Ok(edges - {p})
      else
        var r := StashLive(edges, order[1..]);
        assert forall i :: 0 <= i < |order[1..]| ==> order[1..][i] == order[i + 1];
        assert r.Err? ==> exists i :: 0 <= i < |order| - 1 && order[i] in edges && IsNonDependency(edges[order[i]]) by {
          if r.Err? {
            var j :| 0 <= j < |order[1..]| - 1 && order[1..][j] in edges && IsNonDependency(edges[order[1..][j]]);
            assert order[j + 1] == order[1..][j];
          }
        }
        r
  }

  /** A graph with a revision edge visited before a usage edge: the loop as
      written throws, where the snapshot the model takes stashes the
      revision edge and keeps the usage edge. */
  lemma StashLiveThrows()
    ensures var edges := map[("b", "a") := Edge("wasRevisionOf", "", ""), ("c", "b") := Edge("used", "", "")];
            StashLive(edges, [("b", "a"), ("c", "b")]) == Err(ConcurrentModification) &&
            DependencyEdges(edges) == map[("c", "b") := Edge("used", "", "")] &&
            NonDependencyEdges(edges) == map[("b", "a") := Edge("wasRevisionOf", "", "")]
  {
    var edges := map[("b", "a") := Edge("wasRevisionOf", "", ""), ("c", "b") := Edge("used", "", "")];
    assert ("b", "a") != ("c", "b");
    assert DependencyEdges(edges).Keys == {("c", "b")};
    assert NonDependencyEdges(edges).Keys == {("b", "a")};
  }

  /** `s` is `s0` with a listing of the non-dependency edges of `original` pushed on top. */
  ghost predicate StashedOnto(s0: seq<StashedEdge>, s: seq<StashedEdge>, nodes: map<string, Node>,
                              original: map<Pair, Edge>)
  {
    |s| >= |s0| && s[..|s0|] == s0 && ListsEdges(s[|s0|..], nodes, NonDependencyEdges(original))
  }

  /** Popping `prefix + part` replays `part` first, then `prefix`. */
  lemma {:induction false} UnstashedAppend(nodes: map<string, Node>, edges: map<Pair, Edge>,
                                           prefix: seq<StashedEdge>, part: seq<StashedEdge>)
    ensures Unstashed(nodes, edges, prefix + part)
            == Unstashed(nodes, Unstashed(nodes, edges, part), prefix)
    decreases |part|
  {
    if part == [] {
      assert prefix + part == prefix;
    } else {
      var top := part[|part| - 1];
      var s := prefix + part;
      assert s[|s| - 1] == top;
      assert s[..|s| - 1] == prefix + part[..|part| - 1];
      UnstashedAppend(nodes, AddedEdges(nodes, edges, top.from.uuid, top.to.uuid, top.edge),
                      prefix, part[..|part| - 1]);
    }
  }

  /** Replaying a listing of the edges missing from a sub-map of a
      well-formed edge map adds every one of them back: each re-added edge
      lies in the original acyclic graph, so it closes no cycle. */
  lemma {:induction false} ReplayRestores(nodes: map<string, Node>, original: map<Pair, Edge>,
                                          current: map<Pair, Edge>, part: seq<StashedEdge>)
    requires GraphOk(nodes, original)
    requires forall p :: p in current ==> p in original && current[p] == original[p]
    requires forall i :: 0 <= i < |part| ==>
               PairOf(part[i]) in original && original[PairOf(part[i])] == part[i].edge &&
               PairOf(part[i]) !in current
    requires forall i, j :: 0 <= i < j < |part| ==> PairOf(part[i]) != PairOf(part[j])
    requires current.Keys + StackPairs(part) == original.Keys
    ensures Unstashed(nodes, current, part) == original
    decreases |part|
  {
    if part == [] {
      assert current.Keys == original.Keys;
    } else {
      var top := part[|part| - 1];
      var rest := part[..|part| - 1];
      var (f, t) := PairOf(top);
      ReplayStep(nodes, original, current, f, t, top.edge);
      var next := current[(f, t) := top.edge];
      forall i | 0 <= i < |rest|
        ensures PairOf(rest[i]) !in next
      {
        assert PairOf(rest[i]) != PairOf(part[|part| - 1]);
      }
      StackPairsSnoc(part);
      ReplayRestores(nodes, original, next, rest);
    }
  }

  /** Re-adding an edge of the original acyclic graph to a sub-map of it
      installs that edge. */
  lemma ReplayStep(nodes: map<string, Node>, original: map<Pair, Edge>,
                   current: map<Pair, Edge>, f: string, t: string, e: Edge)
    requires GraphOk(nodes, original)
    requires forall p :: p in current ==> p in original && current[p] == original[p]
    requires (f, t) in original && original[(f, t)] == e && (f, t) !in current
    ensures AddedEdges(nodes, current, f, t, e) == current[(f, t) := e]
  {
    EdgeNotReversed(original.Keys, f, t);
    ClosureMonoEdges(current.Keys, original.Keys, {t});
  }

  /** The pairs of a non-empty listing are those of all but its last entry,
      and the last entry's. */
  lemma StackPairsSnoc(part: seq<StashedEdge>)
    requires part != []
    ensures StackPairs(part) == StackPairs(part[..|part| - 1]) + {PairOf(part[|part| - 1])}
  {
    var rest := part[..|part| - 1];
    forall q | q in StackPairs(part)
      ensures q in StackPairs(rest) + {PairOf(part[|part| - 1])}
    {
      var i :| 0 <= i < |part| && PairOf(part[i]) == q;
      if i < |rest| {
        assert PairOf(rest[i]) == q;
      }
    }
    forall q | q in StackPairs(rest)
      ensures q in StackPairs(part)
    {
      var i :| 0 <= i < |rest| && PairOf(rest[i]) == q;
      assert PairOf(part[i]) == q;
    }
  }

  /** Taking the non-dependency edges out and replaying their listing puts
      back exactly the original edge map, whatever was stacked before. */
  lemma StashRoundTrip(nodes: map<string, Node>, edges: map<Pair, Edge>,
                       prefix: seq<StashedEdge>, part: seq<StashedEdge>)
    requires GraphOk(nodes, edges)
    requires ListsEdges(part, nodes, NonDependencyEdges(edges))
    ensures Unstashed(nodes, DependencyEdges(edges), prefix + part)
            == Unstashed(nodes, edges, prefix)
  {
    UnstashedAppend(nodes, DependencyEdges(edges), prefix, part);
    assert DependencyEdges(edges).Keys + StackPairs(part) == edges.Keys;
    ReplayRestores(nodes, edges, DependencyEdges(edges), part);
  }

  /** The nodes filed under the uuids of `S`. */
  function NodesOf(nodes: map<string, Node>, S: set<string>): set<Node>
  {
    set k | k in S && k in nodes :: nodes[k]
  }

  function Uuids(ns: set<Node>): set<string>
  {
    set v | v in ns :: v.uuid
  }

  /** The nodes of `ns` whose PROV type is `kind`. */
  function OfKind(ns: set<Node>, kind: string): set<Node>
  {
    set v | v in ns && v.kind == kind
  }

  /** Every node of the graph reachable from each piece of evidence. */
  function CommonAncestors(nodes: map<string, Node>, edges: map<Pair, Edge>,
                           evidence: set<string>): set<string>
  {
    set k | k in nodes && forall e | e in evidence :: k in Desc(edges.Keys, e)
  }

  /** The uuids from which `n` is reachable by a non-empty path. */
  function ReachingNodes(nodes: map<string, Node>, edges: map<Pair, Edge>, n: string): set<string>
  {
    set k | k in nodes && n in Desc(edges.Keys, k)
  }

  /** For every entity from which `n` is reachable, the entities it reaches. */
  function BackwardForward(nodes: map<string, Node>, edges: map<Pair, Edge>, n: string)
    : map<Node, set<Node>>
  {
    map a | a in OfKind(NodesOf(nodes, ReachingNodes(nodes, edges, n)), "entity")
      :: OfKind(NodesOf(nodes, Desc(edges.Keys, a.uuid)), "entity")
  }

  /** In a well-formed graph nothing reachable lies outside the graph. */
  lemma DescInGraph(nodes: map<string, Node>, edges: map<Pair, Edge>, n: string)
    requires GraphOk(nodes, edges)
    ensures Desc(edges.Keys, n) <= nodes.Keys
  {
    assert Succ(edges.Keys, {n}) <= nodes.Keys;
    ClosureLeast(edges.Keys, Succ(edges.Keys, {n}), nodes.Keys);
  }

  /** No piece of evidence is among its own common ancestors. */
  lemma CommonAncestorsExcludeEvidence(nodes: map<string, Node>, edges: map<Pair, Edge>,
                                       evidence: set<string>, e: string)
    requires GraphOk(nodes, edges) && e in evidence
    ensures e !in CommonAncestors(nodes, edges, evidence)
  {
    assert e !in Desc(edges.Keys, e);
  }

  /** Whatever a common ancestor reaches is a common ancestor too. */
  lemma CommonAncestorsClosed(nodes: map<string, Node>, edges: map<Pair, Edge>,
                              evidence: set<string>, k: string)
    requires GraphOk(nodes, edges)
    requires k in CommonAncestors(nodes, edges, evidence)
    ensures Desc(edges.Keys, k) <= CommonAncestors(nodes, edges, evidence)
  {
    DescInGraph(nodes, edges, k);
    forall m | m in Desc(edges.Keys, k)
      ensures m in CommonAncestors(nodes, edges, evidence)
    {
      forall e | e in evidence
        ensures m in Desc(edges.Keys, e)
      {
        ClosureTransitive(edges.Keys, Succ(edges.Keys, {e}), k);
      }
    }
  }

  /** More evidence can only narrow the common ancestry. */
  lemma CommonAncestorsUnion(nodes: map<string, Node>, edges: map<Pair, Edge>,
                             ev1: set<string>, ev2: set<string>)
    ensures CommonAncestors(nodes, edges, ev1 + ev2)
            == CommonAncestors(nodes, edges, ev1) * CommonAncestors(nodes, edges, ev2)
  {
  }

  /** In a backward-forward trace the node of interest is never its own
      root cause, and the forward trace of every root cause covers every
      entity the node of interest reaches (and the node itself when it is
      an entity). */
  lemma BackwardForwardCovers(nodes: map<string, Node>, edges: map<Pair, Edge>, n: string)
    requires GraphOk(nodes, edges) && n in nodes
    ensures forall a :: a in BackwardForward(nodes, edges, n) ==> a.uuid != n
    ensures forall a :: a in BackwardForward(nodes, edges, n) ==>
              OfKind(NodesOf(nodes, Desc(edges.Keys, n)), "entity") <= BackwardForward(nodes, edges, n)[a]
    ensures nodes[n].kind == "entity" ==>
              forall a :: a in BackwardForward(nodes, edges, n) ==> nodes[n] in BackwardForward(nodes, edges, n)[a]
  {
    var r := BackwardForward(nodes, edges, n);
    forall a | a in r
      ensures a.uuid != n
      ensures OfKind(NodesOf(nodes, Desc(edges.Keys, n)), "entity") <= r[a]
      ensures nodes[n].kind == "entity" ==> nodes[n] in r[a]
    {
      assert a.uuid in ReachingNodes(nodes, edges, n);
      assert n in Desc(edges.Keys, a.uuid);
      assert n !in Desc(edges.Keys, n);
      ClosureTransitive(edges.Keys, Succ(edges.Keys, {a.uuid}), n);
    }
  }

  /** A node with at least one edge, in either direction. */
  predicate HasIncidentEdge(edges: map<Pair, Edge>, k: string)
  {
    exists p | p in edges :: p.0 == k || p.1 == k
  }

  /** Generation and invalidation are the relations through which an activity has an effect. */
  predicate IsEffect(e: Edge)
  {
    e.kind == "wasGeneratedBy" || e.kind == "invalidates"
  }

  predicate HasEffect(edges: map<Pair, Edge>, k: string)
  {
    exists p | p in edges && (p.0 == k || p.1 == k) :: IsEffect(edges[p])
  }

  /** The node map with every node that has no edge removed. */
  function WithoutOrphans(nodes: map<string, Node>, edges: map<Pair, Edge>): map<string, Node>
  {
    map k | k in nodes && HasIncidentEdge(edges, k) :: nodes[k]
  }

  /** The activities that neither generate nor invalidate anything. */
  function IdleActivities(nodes: map<string, Node>, edges: map<Pair, Edge>): set<string>
  {
    set k | k in nodes && nodes[k].kind == "activity" && !HasEffect(edges, k)
  }

  /** Removing vertices also removes every edge that touches them. */
  function EdgesAvoiding(edges: map<Pair, Edge>, gone: set<string>): map<Pair, Edge>
  {
    map p | p in edges && p.0 !in gone && p.1 !in gone :: edges[p]
  }

  /** Dropping orphans keeps the graph well formed: every end point of an
      edge has that edge, so it stays. */
  lemma WithoutOrphansSound(nodes: map<string, Node>, edges: map<Pair, Edge>)
    requires GraphOk(nodes, edges)
    ensures GraphOk(WithoutOrphans(nodes, edges), edges)
  {
    EndpointsHaveEdges(nodes, edges);
  }

  lemma EndpointsHaveEdges(nodes: map<string, Node>, edges: map<Pair, Edge>)
    requires GraphOk(nodes, edges)
    ensures forall p :: p in edges ==> p.0 in WithoutOrphans(nodes, edges) && p.1 in WithoutOrphans(nodes, edges)
  {
    var r := WithoutOrphans(nodes, edges);
    forall p | p in edges
      ensures p.0 in r && p.1 in r
    {
      assert HasIncidentEdge(edges, p.0);
      assert HasIncidentEdge(edges, p.1);
    }
  }

  /** No orphan is left behind, so a second pass changes nothing. */
  lemma WithoutOrphansTwice(nodes: map<string, Node>, edges: map<Pair, Edge>)
    ensures WithoutOrphans(WithoutOrphans(nodes, edges), edges) == WithoutOrphans(nodes, edges)
  {
    var r := WithoutOrphans(nodes, edges);
    var r2 := WithoutOrphans(r, edges);
    assert r2.Keys == r.Keys;
  }

  /** Pruning the idle activities (with their edges) keeps the graph well
      formed, removes no other node, and leaves every remaining activity
      with an effect edge, so a second pass changes nothing. */
  lemma PruneIdleActivitiesSound(nodes: map<string, Node>, edges: map<Pair, Edge>)
    requires GraphOk(nodes, edges)
    ensures var idle := IdleActivities(nodes, edges);
      GraphOk(nodes - idle, EdgesAvoiding(edges, idle)) &&
      (forall k :: k in nodes && nodes[k].kind != "activity" ==> k in nodes - idle) &&
      IdleActivities(nodes - idle, EdgesAvoiding(edges, idle)) == {}
  {
    var idle := IdleActivities(nodes, edges);
    var n2 := nodes - idle;
    var e2 := EdgesAvoiding(edges, idle);
    AcyclicSubset(e2.Keys, edges.Keys);
    forall k | k in n2 && n2[k].kind == "activity"
      ensures HasEffect(e2, k)
    {
      assert HasEffect(edges, k);
      var p :| p in edges && (p.0 == k || p.1 == k) && IsEffect(edges[p]);
      if p.0 in idle {
        assert HasEffect(edges, p.0);
      }
      if p.1 in idle {
        assert HasEffect(edges, p.1);
      }
      assert p in e2;
    }
  }

  /** `value.substring(0, value.indexOf("$"))`: the application name in
      front of the first `$` of an event-listener activity's value. */
  function AppName(value: string): Result<string, StringError>
  {
    Substring(value, 0, IndexOf(value, '$'))
  }

  lemma AppNameSpec(value: string)
    ensures AppName(value).Ok? <==> '$' in value
    ensures AppName(value).Ok? ==> value == AppName(value).value + value[|AppName(value).value|..]
                                   && '$' !in AppName(value).value
                                   && value[|AppName(value).value|] == '$'
  {
    var i := IndexOf(value, '$');
    if i >= 0 {
      assert value == value[..i] + value[i..];
    }
  }

  /** `value.substring(value.indexOf("=") + 1, value.indexOf(","))`: the
      switch port named in an inbound packet's value. */
  function PortName(value: string): Result<string, StringError>
  {
    Substring(value, IndexOf(value, '=') + 1, IndexOf(value, ','))
  }

  /** The port name is defined exactly when the value has a comma and its
      first `=`, if it has one, comes before its first comma; it is the text
      between that `=` (or the start) and that comma. So "a=b,c=d" gives "b",
      "p,q" gives "p", and "a,b=c" is refused. */
  lemma PortNameSpec(value: string)
    ensures PortName(value).Ok? <==> ',' in value && IndexOf(value, '=') < IndexOf(value, ',')
    ensures PortName(value).Ok? ==>
              ',' !in PortName(value).value &&
              PortName(value).value == value[IndexOf(value, '=') + 1..IndexOf(value, ',')]
  {
  }

  predicate IsInboundPacket(n: Node)
  {
    Contains(n.value, "DefaultInboundPacket")
  }

  predicate IsFlowRule(n: Node)
  {
    Contains(n.value, "DefaultFlowRule")
  }

  predicate IsForwardingObjective(n: Node)
  {
    Contains(n.value, "DefaultForwardingObjective")
  }

  /** The agent node for a name: its letters and digits serve as uuid and
      timestamp, the name itself as value. */
  function AgentFor(name: string): (a: Node)
    ensures a.kind == "agent" && AllAlnum(a.uuid) && a.value == name
  {
    Node(KeepAlnum(name), "agent", name, KeepAlnum(name))
  }

  /** Every node whose uuid is purely alphanumeric is an agent without
      outgoing edges. Uuids of recorded entities and activities carry dashes,
      so this holds of a freshly loaded graph; under it every agency edge is
      accepted. */
  ghost predicate AgentsAreSinks(nodes: map<string, Node>, edges: map<Pair, Edge>)
  {
    (forall k :: k in nodes && AllAlnum(k) ==> nodes[k].kind == "agent") &&
    (forall p :: p in edges && AllAlnum(p.0) ==> p.0 !in nodes)
  }

  /** The edge map with the outgoing derivation edges of the inbound-packet
      nodes among `visited` removed. */
  function WithoutPacketDerivations(nodes: map<string, Node>, edges: map<Pair, Edge>,
                                    visited: set<string>): map<Pair, Edge>
  {
    map p | p in edges && !(p.0 in visited && p.0 in nodes && IsInboundPacket(nodes[p.0]) &&
                            edges[p].kind == "wasDerivedFrom")
      :: edges[p]
  }

  /** After the pass no inbound packet derives from anything, every other
      edge is untouched, and the graph stays well formed. */
  lemma WithoutPacketDerivationsSound(nodes: map<string, Node>, edges: map<Pair, Edge>)
    requires GraphOk(nodes, edges)
    ensures var r := WithoutPacketDerivations(nodes, edges, nodes.Keys);
      GraphOk(nodes, r) &&
      (forall p :: p in r && IsInboundPacket(nodes[p.0]) ==> r[p].kind != "wasDerivedFrom") &&
      (forall p :: p in edges && (!IsInboundPacket(nodes[p.0]) || edges[p].kind != "wasDerivedFrom") ==>
                     p in r && r[p] == edges[p])
  {
    AcyclicSubset(WithoutPacketDerivations(nodes, edges, nodes.Keys).Keys, edges.Keys);
  }

  /** The agents the application-agency pass attaches: each activity with
      the agent named after the application in front of its `$`. */
  function AppAgencyPairs(nodes: map<string, Node>): set<(string, Node)>
  {
    set a | a in nodes.Values && a.kind == "activity" && AppName(a.value).Ok?
      :: (a.uuid, AgentFor(AppName(a.value).value))
  }

  /** The agents the switch-port-agency pass attaches: each inbound packet
      with the agent named after its switch port. */
  function PortAgencyPairs(nodes: map<string, Node>): set<(string, Node)>
  {
    set a | a in nodes.Values && IsInboundPacket(a) && PortName(a.value).Ok?
      :: (a.uuid, AgentFor(PortName(a.value).value))
  }

  /** The label every agency edge carries: the relation, an empty value, timestamp "0". */
  function AgencyEdge(rel: string): Edge
  {
    Edge(rel, "", "0")
  }

  /** What attaching the agents of `pairs` with relation `rel` does to a
      graph: old nodes stay as they were, every agent uuid ends up in the
      graph and every new node is one of the agents; old edges stay, and
      every new or relabelled edge is an agency edge of a pair. */
  ghost predicate AgentsAttachedSafely(n0: map<string, Node>, e0: map<Pair, Edge>,
                                       n1: map<string, Node>, e1: map<Pair, Edge>,
                                       pairs: set<(string, Node)>, rel: string)
  {
    (forall k :: k in n0 ==> k in n1 && n1[k] == n0[k]) &&
    (forall q :: q in pairs ==> q.1.uuid in n1) &&
    (forall k :: k in n1 && k !in n0 ==> exists q :: q in pairs && q.1.uuid == k && n1[k] == q.1) &&
    (forall p :: p in e0 ==> p in e1) &&
    (forall p :: p in e1 && !(p in e0 && e1[p] == e0[p]) ==>
       e1[p] == AgencyEdge(rel) && exists q :: q in pairs && p == (q.0, q.1.uuid))
  }

  /** The agency passes' precondition for exactness: agents are sinks and
      no source is an agent. */
  ghost predicate AgencyExactCase(n0: map<string, Node>, e0: map<Pair, Edge>, pairs: set<(string, Node)>)
  {
    AgentsAreSinks(n0, e0) && (forall q :: q in pairs ==> q.0 in n0 && n0[q.0].kind != "agent")
  }

  /** In the exact case every pair gets its agency edge and agents stay sinks. */
  ghost predicate AgentsAttached(n0: map<string, Node>, e0: map<Pair, Edge>,
                                 n1: map<string, Node>, e1: map<Pair, Edge>,
                                 pairs: set<(string, Node)>, rel: string)
  {
    AgentsAttachedSafely(n0, e0, n1, e1, pairs, rel) &&
    (AgencyExactCase(n0, e0, pairs) ==>
       AgentsAreSinks(n1, e1) &&
       forall q :: q in pairs ==> (q.0, q.1.uuid) in e1 && e1[(q.0, q.1.uuid)] == AgencyEdge(rel))
  }

  /** `addEdge` changes at most the label of the one pair it was given. */
  lemma AddedEdgesShape(nodes: map<string, Node>, edges: map<Pair, Edge>,
                        from: string, to: string, e: Edge)
    ensures AddedEdges(nodes, edges, from, to, e) == edges ||
            AddedEdges(nodes, edges, from, to, e) == edges[(from, to) := e]
  {
  }

  /** One step of the agency loop: `addNode(agent)`, then `addEdge(source, agent)`
      when both are in the graph. */
  function AttachOne(nodes: map<string, Node>, edges: map<Pair, Edge>, q: (string, Node), rel: string)
    : (map<string, Node>, map<Pair, Edge>)
  {
    var n' := if q.1.uuid in nodes then nodes else nodes[q.1.uuid := q.1];
    var e' := if q.0 in n' then AddedEdges(n', edges, q.0, q.1.uuid, AgencyEdge(rel)) else edges;
    (n', e')
  }

  lemma AttachOneOk(nodes: map<string, Node>, edges: map<Pair, Edge>, q: (string, Node), rel: string)
    requires GraphOk(nodes, edges)
    ensures GraphOk(AttachOne(nodes, edges, q, rel).0, AttachOne(nodes, edges, q, rel).1)
  {
    var n' := if q.1.uuid in nodes then nodes else nodes[q.1.uuid := q.1];
    assert GraphOk(n', edges);
    if q.0 in n' {
      AddedEdgesOk(n', edges, q.0, q.1.uuid, AgencyEdge(rel));
    }
  }

  /** The safety half of `AgentsAttached` survives one more step. */
  lemma AttachStepSafe(n0: map<string, Node>, e0: map<Pair, Edge>,
                       nodes: map<string, Node>, edges: map<Pair, Edge>,
                       P: set<(string, Node)>, q: (string, Node), rel: string)
    requires AgentsAttachedSafely(n0, e0, nodes, edges, P, rel)
    ensures AgentsAttachedSafely(n0, e0, AttachOne(nodes, edges, q, rel).0,
                                 AttachOne(nodes, edges, q, rel).1, P + {q}, rel)
  {
    var (n1, e1) := AttachOne(nodes, edges, q, rel);
    if q.0 in n1 {
      AddedEdgesShape(n1, edges, q.0, q.1.uuid, AgencyEdge(rel));
    }
    forall k | k in n1 && k !in n0
      ensures exists q' :: q' in P + {q} && q'.1.uuid == k && n1[k] == q'.1
    {
      if k in nodes {
        var q' :| q' in P && q'.1.uuid == k && nodes[k] == q'.1;
        assert q' in P + {q};
      } else {
        assert q in P + {q};
      }
    }
    forall p | p in e1 && !(p in e0 && e1[p] == e0[p])
      ensures e1[p] == AgencyEdge(rel) && exists q' :: q' in P + {q} && p == (q'.0, q'.1.uuid)
    {
      if p in edges && e1[p] == edges[p] {
        var q' :| q' in P && p == (q'.0, q'.1.uuid);
        assert q' in P + {q};
      } else {
        assert q in P + {q};
      }
    }
  }

  /** The completeness half: with agents as sinks and a non-agent source,
      the step installs its agency edge and agents stay sinks. */
  lemma AttachStepExact(nodes: map<string, Node>, edges: map<Pair, Edge>,
                        q: (string, Node), rel: string)
    requires GraphOk(nodes, edges) && AgentsAreSinks(nodes, edges)
    requires q.1.kind == "agent" && AllAlnum(q.1.uuid)
    requires q.0 in nodes && nodes[q.0].kind != "agent"
    ensures var (n1, e1) := AttachOne(nodes, edges, q, rel);
      AgentsAreSinks(n1, e1) && e1 == edges[(q.0, q.1.uuid) := AgencyEdge(rel)]
  {
    var g := q.1.uuid;
    var (n1, e1) := AttachOne(nodes, edges, q, rel);
    assert n1[g].kind == "agent";
    assert forall p :: p in edges.Keys ==> p.0 != g;
    SinkReachesNothing(edges.Keys, g);
    assert q.0 != g;
    assert !AllAlnum(q.0);
    assert e1 == edges[(q.0, g) := AgencyEdge(rel)];
  }

  /** The exact case of one step: the earlier agency edges survive and
      the new one is installed. */
  lemma AttachStepKeeps(nodes: map<string, Node>, edges: map<Pair, Edge>,
                        P: set<(string, Node)>, q: (string, Node), rel: string)
    requires GraphOk(nodes, edges) && AgentsAreSinks(nodes, edges)
    requires forall q' :: q' in P ==> (q'.0, q'.1.uuid) in edges && edges[(q'.0, q'.1.uuid)] == AgencyEdge(rel)
    requires q.1.kind == "agent" && AllAlnum(q.1.uuid)
    requires q.0 in nodes && nodes[q.0].kind != "agent"
    ensures var (n1, e1) := AttachOne(nodes, edges, q, rel);
      AgentsAreSinks(n1, e1) &&
      forall q' :: q' in P + {q} ==> (q'.0, q'.1.uuid) in e1 && e1[(q'.0, q'.1.uuid)] == AgencyEdge(rel)
  {
    AttachStepExact(nodes, edges, q, rel);
  }

  lemma AttachStep(n0: map<string, Node>, e0: map<Pair, Edge>,
                   nodes: map<string, Node>, edges: map<Pair, Edge>,
                   P: set<(string, Node)>, q: (string, Node), rel: string)
    requires GraphOk(nodes, edges)
    requires AgentsAttached(n0, e0, nodes, edges, P, rel)
    requires q.1.kind == "agent" && AllAlnum(q.1.uuid)
    ensures AgentsAttached(n0, e0, AttachOne(nodes, edges, q, rel).0,
                           AttachOne(nodes, edges, q, rel).1, P + {q}, rel)
  {
    AttachStepSafe(n0, e0, nodes, edges, P, q, rel);
    if AgencyExactCase(n0, e0, P + {q}) {
      assert AgencyExactCase(n0, e0, P);
      assert q in P + {q};
      AttachStepKeeps(nodes, edges, P, q, rel);
    }
  }
}

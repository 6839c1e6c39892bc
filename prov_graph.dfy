/** The provenance graph store used by the analysis: nodes and edges are
    added and removed in place, dependency queries stash the revision and
    invalidation edges for their duration, and reduction passes prune or
    enrich the graph before it is rendered. */
module ProvGraph {
  import opened Wrappers
  import opened Reachability
  import opened JavaStrings
  import opened ProvGraphSpec

  /** The library's `IllegalArgumentException` for a start vertex that is
      not in the graph. */
  datatype GraphError = VertexNotInGraph(vertex: Node)

  class W3CProvGraph {
    /** The vertex set, by uuid. */
    var nodes: map<string, Node>
    /** The edge set, by ordered pair of end-point uuids. */
    var edges: map<Pair, Edge>
    /** The stash stack; its top is the last element. */
    var stashedEdges: seq<StashedEdge>

    ghost predicate Valid()
      reads this
    {
      GraphOk(nodes, edges)
    }

    constructor()
      ensures Valid()
      ensures nodes == map[] && edges == map[] && stashedEdges == []
    {
      nodes := map[];
      edges := map[];
      stashedEdges := [];
    }

    /** `addNode`: a node whose uuid is already present is ignored. */
    method AddNode(n: Node)
      requires Valid()
      modifies this
      ensures Valid()
      ensures nodes == if n.uuid in old(nodes) then old(nodes) else old(nodes)[n.uuid := n]
      ensures edges == old(edges) && stashedEdges == old(stashedEdges)
    {
      if GetNode(n.uuid) == None {
        nodes := nodes[n.uuid := n];
      }
    }

    /** `getNode`: the node with the given uuid, if the graph has one. */
    function GetNode(uuid: string): (r: Option<Node>)
      requires Valid()
      reads this
      ensures r.Some? <==> exists v :: v in nodes.Values && v.uuid == uuid
      ensures r.Some? ==> r.value in nodes.Values && r.value.uuid == uuid
    {
      if uuid in nodes then Some(nodes[uuid]) else None
    }

    /** `addEdge`: a self-loop is ignored, an edge between the same ordered
        pair is replaced, and an edge the library refuses (an end point
        missing, or a cycle closed) is silently dropped. */
    method AddEdge(from: Node, to: Node, e: Edge)
      requires Valid()
      modifies this
      ensures Valid()
      ensures edges == AddedEdges(old(nodes), old(edges), from.uuid, to.uuid, e)
      ensures nodes == old(nodes) && stashedEdges == old(stashedEdges)
    {
      AddedEdgesOk(nodes, edges, from.uuid, to.uuid, e);
      if from.uuid == to.uuid {
        return;
      }
      var pair := (from.uuid, to.uuid);
      if pair !in edges {
        if from.uuid in nodes && to.uuid in nodes && from.uuid !in Closure(edges.Keys, {to.uuid}) {
          edges := edges[pair := e];
        }
      } else {
        // removing the old edge and adding the new one replaces the label
        edges := edges[pair := e];
      }
    }

    /** `removeNode`: the vertex goes, and every edge touching it with it. */
    method RemoveNode(k: string)
      requires Valid()
      modifies this
      ensures Valid()
      ensures nodes == old(nodes) - {k}
      ensures edges == EdgesAvoiding(old(edges), {k})
      ensures stashedEdges == old(stashedEdges)
    {
      AcyclicSubset(EdgesAvoiding(edges, {k}).Keys, edges.Keys);
      nodes := nodes - {k};
      edges := EdgesAvoiding(edges, {k});
    }

    /** `stashNonDependencyEdges`: every revision and invalidation edge is
        pushed on the stash, with its end point nodes, and removed. The
        edges are visited in an arbitrary order over a snapshot of the edge
        set. */
    method StashNonDependencyEdges()
      requires Valid()
      modifies this
      ensures Valid()
      ensures nodes == old(nodes)
      ensures edges == DependencyEdges(old(edges))
      ensures StashedOnto(old(stashedEdges), stashedEdges, nodes, old(edges))
    {
      ghost var E0 := edges;
      ghost var s0 := stashedEdges;
      ghost var part: seq<StashedEdge> := [];
      var todo := edges.Keys;
      while todo != {}
        invariant todo <= E0.Keys
        invariant nodes == old(nodes)
        invariant edges == KeptSoFar(E0, todo)
        invariant stashedEdges == s0 + part
        invariant ListsEdges(part, nodes, StashedSoFar(E0, todo))
        decreases |todo|
      {
        var p :| p in todo;
        part := StashVisit(p, E0, s0, part, todo);
        todo := todo - {p};
      }
      assert stashedEdges[|s0|..] == part;
      assert KeptSoFar(E0, {}) == DependencyEdges(E0);
      assert StashedSoFar(E0, {}) == NonDependencyEdges(E0);
      AcyclicSubset(edges.Keys, E0.Keys);
    }

    /** One turn of the stash loop: the edge at `p` is pushed and removed
        when it is not a dependency edge, and left alone otherwise. */
    method StashVisit(p: Pair, ghost E0: map<Pair, Edge>, ghost s0: seq<StashedEdge>,
                      ghost part: seq<StashedEdge>, ghost todo: set<Pair>)
      returns (ghost part': seq<StashedEdge>)
      requires GraphOk(nodes, E0) && todo <= E0.Keys && p in todo
      requires edges == KeptSoFar(E0, todo) && stashedEdges == s0 + part
      requires ListsEdges(part, nodes, StashedSoFar(E0, todo))
      modifies this
      ensures nodes == old(nodes)
      ensures edges == KeptSoFar(E0, todo - {p}) && stashedEdges == s0 + part'
      ensures ListsEdges(part', nodes, StashedSoFar(E0, todo - {p}))
    {
      var e := edges[p];
      StashStep(nodes, E0, todo, p);
      part' := part;
      if IsNonDependency(e) {
        var entry := StashedEdge(nodes[p.0], nodes[p.1], e);
        ListsEdgesPush(part, nodes, StashedSoFar(E0, todo), entry);
        PushAssoc(s0, part, entry);
        stashedEdges := stashedEdges + [entry];
        part' := part + [entry];
        edges := edges - {p};
      }
    }

    /** `unstashNonDependencyEdges`: pops every stashed edge and adds it back
        with `addEdge` until the stash is empty. */
    method UnstashNonDependencyEdges()
      requires Valid()
      modifies this
      ensures Valid()
      ensures nodes == old(nodes) && stashedEdges == []
      ensures edges == Unstashed(old(nodes), old(edges), old(stashedEdges))
    {
      while stashedEdges != []
        invariant Valid() && nodes == old(nodes)
        invariant Unstashed(nodes, edges, stashedEdges) == Unstashed(old(nodes), old(edges), old(stashedEdges))
        decreases |stashedEdges|
      {
        var top := stashedEdges[|stashedEdges| - 1];
        stashedEdges := stashedEdges[..|stashedEdges| - 1];
        AddEdge(top.from, top.to, top.edge);
      }
    }

    /** `getAncestryOfNode`: in PROV terms the ancestry of `n`, in the
        library's terms its descendants; the graph nodes reachable from `n`
        along a non-empty path. A vertex not in the graph is refused. */
    function GetAncestryOfNode(n: Node): (r: Result<set<Node>, GraphError>)
      requires Valid()
      reads this
      ensures r.Ok? <==> n in nodes.Values
      ensures r.Err? ==> r.error == VertexNotInGraph(n)
      ensures r.Ok? ==> r.value <= nodes.Values && n.uuid !in Uuids(r.value)
      ensures r.Ok? ==> forall v :: v in nodes.Values ==> (v in r.value <==> v.uuid in Desc(edges.Keys, n.uuid))
      ensures r.Ok? ==> forall p :: p in edges && p.0 == n.uuid ==> nodes[p.1] in r.value
      ensures r.Ok? ==> forall p :: p in edges && nodes[p.0] in r.value ==> nodes[p.1] in r.value
    {
      if n !in nodes.Values then Err(VertexNotInGraph(n))
      else
        var E := edges.Keys;
        assert n.uuid !in Desc(E, n.uuid);
        assert forall p :: p in edges && p.0 == n.uuid ==> p.1 in Succ(E, {n.uuid});
        assert Closed(E, Desc(E, n.uuid));
        NodesOfMembers(nodes, Desc(E, n.uuid));
        Ok(NodesOf(nodes, Desc(E, n.uuid)))
    }

    /** `getDescendantsOfNode`: in PROV terms the descendants of `n`, in the
        library's terms its ancestors; exactly the graph nodes whose ancestry
        contains `n`. A vertex not in the graph is refused. */
    function GetDescendantsOfNode(n: Node): (r: Result<set<Node>, GraphError>)
      requires Valid()
      reads this
      ensures r.Ok? <==> n in nodes.Values
      ensures r.Err? ==> r.error == VertexNotInGraph(n)
      ensures r.Ok? ==> r.value <= nodes.Values
      ensures r.Ok? ==> forall v :: v in nodes.Values ==>
                GetAncestryOfNode(v).Ok? && (v in r.value <==> n in GetAncestryOfNode(v).value)
    {
      if n !in nodes.Values then Err(VertexNotInGraph(n))
      else
        DescendantsDuality(nodes, edges, n.uuid);
        NodeFiledUnderUuid(nodes, n);
        Ok(NodesOf(nodes, ReachingNodes(nodes, edges, n.uuid)))
    }

    /** `filterEntities`, `filterActivities`, `filterAgents`: the nodes of a
        set whose PROV type is the given one. */
    method FilterByKind(ns: set<Node>, kind: string) returns (r: set<Node>)
      ensures r == OfKind(ns, kind)
    {
      r := {};
      var rest := ns;
      while rest != {}
        invariant rest <= ns
        invariant r == OfKind(ns - rest, kind)
        decreases |rest|
      {
        var v :| v in rest;
        if v.kind == kind {
          r := r + {v};
        }
        rest := rest - {v};
      }
    }

    method FilterEntities(ns: set<Node>) returns (r: set<Node>)
      ensures r == OfKind(ns, "entity")
    {
      r := FilterByKind(ns, "entity");
    }

    method FilterActivities(ns: set<Node>) returns (r: set<Node>)
      ensures r == OfKind(ns, "activity")
    {
      r := FilterByKind(ns, "activity");
    }

    method FilterAgents(ns: set<Node>) returns (r: set<Node>)
      ensures r == OfKind(ns, "agent")
    {
      r := FilterByKind(ns, "agent");
    }

    /** `getNodesByValue`: the nodes of a set whose value contains `value`. */
    method GetNodesByValue(value: string, ns: set<Node>) returns (r: set<Node>)
      ensures r <= ns
      ensures forall v :: v in ns ==> (v in r <==> Contains(v.value, value))
    {
      r := {};
      var rest := ns;
      while rest != {}
        invariant rest <= ns
        invariant r <= ns - rest
        invariant forall v :: v in ns - rest ==> (v in r <==> Contains(v.value, value))
        decreases |rest|
      {
        var v :| v in rest;
        if Contains(v.value, value) {
          r := r + {v};
        }
        rest := rest - {v};
      }
    }

    /** `commonAncestryTrace`: with the non-dependency edges stashed, the
        nodes reachable from every piece of evidence, split into agents,
        activities and entities; then the stash is replayed. Evidence that
        is not in the graph makes the library throw before the replay, so
        the stashed edges stay out of the graph. */
    method CommonAncestryTrace(evidence: set<Node>)
      returns (r: Result<(set<Node>, set<Node>, set<Node>), GraphError>)
      requires Valid()
      modifies this
      ensures Valid() && nodes == old(nodes)
      ensures r.Ok? <==> evidence <= old(nodes).Values
      ensures r.Err? ==> r.error.vertex in evidence && r.error.vertex !in nodes.Values
      ensures r.Err? ==> edges == DependencyEdges(old(edges))
      ensures r.Err? ==> StashedOnto(old(stashedEdges), stashedEdges, nodes, old(edges))
      ensures r.Ok? ==> stashedEdges == []
      ensures r.Ok? ==> edges == Unstashed(old(nodes), old(edges), old(stashedEdges))
      ensures r.Ok? && old(stashedEdges) == [] ==> edges == old(edges)
      ensures r.Ok? ==>
                var common := NodesOf(old(nodes),
                  CommonAncestors(old(nodes), DependencyEdges(old(edges)), Uuids(evidence)));
                r.value.0 == OfKind(common, "agent") &&
                r.value.1 == OfKind(common, "activity") &&
                r.value.2 == OfKind(common, "entity")
    {
      ghost var s0 := stashedEdges;
      StashNonDependencyEdges();
      ghost var part := stashedEdges[|s0|..];
      assert stashedEdges == s0 + part;
      var narrowed := CommonAncestryOf(evidence);
      if narrowed.Err? {
        return Err(narrowed.error);
      }
      var common := narrowed.value;
      var agents := FilterAgents(common);
      var activities := FilterActivities(common);
      var entities := FilterEntities(common);
      UnstashNonDependencyEdges();
      StashRoundTrip(old(nodes), old(edges), s0, part);
      r := Ok((agents, activities, entities));
    }

    /** The loop of `commonAncestryTrace`: every node of the graph, narrowed
        to the ancestry of each piece of evidence in turn; the first piece
        not in the graph is refused. */
    method CommonAncestryOf(evidence: set<Node>) returns (r: Result<set<Node>, GraphError>)
      requires Valid()
      ensures r.Ok? <==> evidence <= nodes.Values
      ensures r.Err? ==> r.error.vertex in evidence && r.error.vertex !in nodes.Values
      ensures r.Ok? ==> r.value == NodesOf(nodes, CommonAncestors(nodes, edges, Uuids(evidence)))
    {
      var common := nodes.Values;
      ghost var commonKeys := nodes.Keys;
      NodesOfKeys(nodes);
      var rest := evidence;
      while rest != {}
        invariant rest <= evidence
        invariant evidence - rest <= nodes.Values
        invariant commonKeys == CommonAncestors(nodes, edges, Uuids(evidence - rest))
        invariant common == NodesOf(nodes, commonKeys)
        decreases |rest|
      {
        var ev :| ev in rest;
        var ancestry := GetAncestryOfNode(ev);
        if ancestry.Err? {
          return Err(ancestry.error);
        }
        NodesOfIntersect(nodes, commonKeys, Desc(edges.Keys, ev.uuid));
        common := common * ancestry.value;
        commonKeys := commonKeys * Desc(edges.Keys, ev.uuid);
        assert Uuids(evidence - (rest - {ev})) == Uuids(evidence - rest) + {ev.uuid};
        rest := rest - {ev};
      }
      r := Ok(common);
    }

    /** The loop of `backwardForwardTrace`: each ancestor mapped to the entities it reaches. */
    method ForwardTraces(ancestors: set<Node>) returns (results: map<Node, set<Node>>)
      requires Valid()
      requires ancestors <= nodes.Values
      ensures results == map a | a in ancestors :: OfKind(NodesOf(nodes, Desc(edges.Keys, a.uuid)), "entity")
    {
      results := map[];
      var rest := ancestors;
      while rest != {}
        invariant rest <= ancestors
        invariant results == map a | a in ancestors - rest ::
                               OfKind(NodesOf(nodes, Desc(edges.Keys, a.uuid)), "entity")
        decreases |rest|
      {
        var a :| a in rest;
        var ancestry := GetAncestryOfNode(a);
        var descendants := FilterEntities(ancestry.value);
        results := results[a := descendants];
        rest := rest - {a};
      }
    }

    /** `backwardForwardTrace`: with the non-dependency edges stashed, every
        entity from which `n` is reachable (a candidate root cause), mapped
        to the entities that it reaches; then the stash is replayed. A node
        not in the graph makes the library throw before the replay, so the
        stashed edges stay out of the graph. */
    method BackwardForwardTrace(n: Node) returns (r: Result<map<Node, set<Node>>, GraphError>)
      requires Valid()
      modifies this
      ensures Valid() && nodes == old(nodes)
      ensures r.Ok? <==> n in old(nodes).Values
      ensures r.Err? ==> r.error == VertexNotInGraph(n)
      ensures r.Err? ==> edges == DependencyEdges(old(edges))
      ensures r.Err? ==> StashedOnto(old(stashedEdges), stashedEdges, nodes, old(edges))
      ensures r.Ok? ==> stashedEdges == []
      ensures r.Ok? ==> edges == Unstashed(old(nodes), old(edges), old(stashedEdges))
      ensures r.Ok? && old(stashedEdges) == [] ==> edges == old(edges)
      ensures r.Ok? ==> r.value == BackwardForward(old(nodes), DependencyEdges(old(edges)), n.uuid)
    {
      ghost var s0 := stashedEdges;
      StashNonDependencyEdges();
      ghost var part := stashedEdges[|s0|..];
      assert stashedEdges == s0 + part;
      var reaching := GetDescendantsOfNode(n);
      if reaching.Err? {
        return Err(reaching.error);
      }
      var ancestors := FilterEntities(reaching.value);
      var results := ForwardTraces(ancestors);
      UnstashNonDependencyEdges();
      StashRoundTrip(old(nodes), old(edges), s0, part);
      r := Ok(results);
    }

    /** Removes every vertex of `gone`, one at a time, with its edges. */
    method RemoveNodes(gone: set<string>)
      requires Valid()
      modifies this
      ensures Valid()
      ensures nodes == old(nodes) - gone
      ensures edges == EdgesAvoiding(old(edges), gone)
      ensures stashedEdges == old(stashedEdges)
    {
      var rest := gone;
      while rest != {}
        invariant rest <= gone
        invariant Valid()
        invariant nodes == old(nodes) - (gone - rest)
        invariant edges == EdgesAvoiding(old(edges), gone - rest)
        invariant stashedEdges == old(stashedEdges)
        decreases |rest|
      {
        var k :| k in rest;
        RemoveNode(k);
        EdgesAvoidingTwice(old(edges), gone - rest, k);
        assert gone - rest + {k} == gone - (rest - {k});
        rest := rest - {k};
      }
      assert gone - rest == gone;
    }

    /** The first loop of `removeOrphanNodes`: the vertices without an edge. */
    method CollectOrphans() returns (orphans: set<string>)
      ensures orphans == Orphans(nodes, edges)
    {
      orphans := {};
      var rest := nodes.Keys;
      while rest != {}
        invariant rest <= nodes.Keys
        invariant orphans == set k | k in nodes.Keys - rest && !HasIncidentEdge(edges, k)
        decreases |rest|
      {
        var k :| k in rest;
        if !HasIncidentEdge(edges, k) {
          orphans := orphans + {k};
        }
        rest := rest - {k};
      }
    }

    /** `removeOrphanNodes`: every node without an edge is collected, then removed. */
    method RemoveOrphanNodes()
      requires Valid()
      modifies this
      ensures Valid()
      ensures nodes == WithoutOrphans(old(nodes), old(edges))
      ensures edges == old(edges) && stashedEdges == old(stashedEdges)
    {
      var setToRemove := CollectOrphans();
      OrphansRemoved(nodes, edges);
      RemoveNodes(setToRemove);
    }

    /** The inner loop of `removeActivitiesWithoutEffect`: does some edge of
        `k` generate or invalidate? */
    method HasEffectEdge(k: string) returns (b: bool)
      ensures b == HasEffect(edges, k)
    {
      var incident := set p | p in edges && (p.0 == k || p.1 == k);
      b := false;
      var rest := incident;
      while rest != {} && !b
        invariant rest <= incident
        invariant b ==> HasEffect(edges, k)
        invariant !b ==> forall p :: p in incident - rest ==> !IsEffect(edges[p])
        decreases |rest|
      {
        var p :| p in rest;
        if IsEffect(edges[p]) {
          b := true;
        }
        rest := rest - {p};
      }
    }

    /** The first loop of `removeActivitiesWithoutEffect`: the activities
        without an effect edge. */
    method CollectIdleActivities() returns (idle: set<string>)
      requires Valid()
      ensures idle == IdleActivities(nodes, edges)
    {
      var activities := FilterActivities(nodes.Values);
      idle := {};
      var rest := activities;
      while rest != {}
        invariant rest <= activities
        invariant idle == set a | a in activities - rest && !HasEffect(edges, a.uuid) :: a.uuid
        decreases |rest|
      {
        var a :| a in rest;
        var effect := HasEffectEdge(a.uuid);
        if !effect {
          idle := idle + {a.uuid};
        }
        rest := rest - {a};
      }
      IdleActivitiesByValue(nodes, edges, activities, idle);
    }

    /** `removeActivitiesWithoutEffect`: every activity with no generation or
        invalidation edge is collected, then removed together with its edges. */
    method RemoveActivitiesWithoutEffect()
      requires Valid()
      modifies this
      ensures Valid()
      ensures nodes == old(nodes) - IdleActivities(old(nodes), old(edges))
      ensures edges == EdgesAvoiding(old(edges), IdleActivities(old(nodes), old(edges)))
      ensures stashedEdges == old(stashedEdges)
    {
      var setToRemove := CollectIdleActivities();
      RemoveNodes(setToRemove);
    }

    /** `removePacketFlowDependency`: the outgoing derivation edges of every
        inbound-packet node are removed (each node's outgoing edges taken as
        a snapshot before removal). */
    method RemovePacketFlowDependency()
      requires Valid()
      modifies this
      ensures Valid()
      ensures nodes == old(nodes) && stashedEdges == old(stashedEdges)
      ensures edges == WithoutPacketDerivations(old(nodes), old(edges), old(nodes).Keys)
    {
      ghost var E0 := edges;
      assert GraphOk(nodes, E0);
      var rest := nodes.Keys;
      while rest != {}
        invariant rest <= nodes.Keys && nodes == old(nodes) && stashedEdges == old(stashedEdges)
        invariant edges == WithoutPacketDerivations(nodes, E0, nodes.Keys - rest)
        decreases |rest|
      {
        var k :| k in rest;
        if IsInboundPacket(nodes[k]) {
          var derivations := set p | p in edges && p.0 == k && edges[p].kind == "wasDerivedFrom";
          edges := edges - derivations;
        }
        assert edges == WithoutPacketDerivations(nodes, E0, nodes.Keys - (rest - {k}));
        rest := rest - {k};
      }
      assert nodes.Keys - rest == nodes.Keys;
      WithoutPacketDerivationsSound(nodes, E0);
    }

    /** `addAppAgency`: every activity gets the agent named after the
        application in front of the `$` of its value, attached by
        `wasAssociatedWith`. An activity without `$` makes `substring` throw
        before the graph is touched; that is the `false` outcome. */
    method AddAppAgency() returns (ok: bool)
      requires Valid()
      modifies this
      ensures Valid() && stashedEdges == old(stashedEdges)
      ensures ok <==> forall a :: a in old(nodes).Values && a.kind == "activity" ==> '$' in a.value
      ensures !ok ==> nodes == old(nodes) && edges == old(edges)
      ensures ok ==> AgentsAttached(old(nodes), old(edges), nodes, edges,
                                    AppAgencyPairs(old(nodes)), "wasAssociatedWith")
    {
      var activities := FilterActivities(nodes.Values);
      var entries := CollectAgents(activities, AppName);
      forall a | a in activities
        ensures AppName(a.value).Ok? <==> '$' in a.value
      {
        AppNameSpec(a.value);
      }
      if entries.Err? {
        return false;
      }
      assert EntrySet(entries.value) == AppAgencyPairs(nodes);
      AttachAgents(entries.value, "wasAssociatedWith");
      ok := true;
    }

    /** `addSwitchportAgency`: every inbound packet gets the agent named
        after the switch port in its value, attached by `wasAttributedTo`.
        A value whose port cannot be cut out makes `substring` throw before
        the graph is touched; that is the `false` outcome. */
    method AddSwitchportAgency() returns (ok: bool)
      requires Valid()
      modifies this
      ensures Valid() && stashedEdges == old(stashedEdges)
      ensures ok <==> forall a :: a in old(nodes).Values && IsInboundPacket(a) ==> PortName(a.value).Ok?
      ensures !ok ==> nodes == old(nodes) && edges == old(edges)
      ensures ok ==> AgentsAttached(old(nodes), old(edges), nodes, edges,
                                    PortAgencyPairs(old(nodes)), "wasAttributedTo")
    {
      var packets := FilterInboundPackets(nodes.Values);
      var entries := CollectAgents(packets, PortName);
      if entries.Err? {
        return false;
      }
      assert EntrySet(entries.value) == PortAgencyPairs(nodes);
      AttachAgents(entries.value, "wasAttributedTo");
      ok := true;
    }

    /** The node test of the first loop of `addSwitchportAgency`. */
    method FilterInboundPackets(ns: set<Node>) returns (r: set<Node>)
      ensures r == set a | a in ns && IsInboundPacket(a)
    {
      r := {};
      var rest := ns;
      while rest != {}
        invariant rest <= ns
        invariant r == set a | a in ns - rest && IsInboundPacket(a)
        decreases |rest|
      {
        var a :| a in rest;
        if IsInboundPacket(a) {
          r := r + {a};
        }
        rest := rest - {a};
      }
    }

    /** One entry of the second loop of both agency passes: add the agent
        node, then the agency edge from the source to the agent when both
        are in the graph. */
    method AttachEntry(q: (string, Node), rel: string)
      requires Valid()
      modifies this
      ensures Valid() && stashedEdges == old(stashedEdges)
      ensures (nodes, edges) == AttachOne(old(nodes), old(edges), q, rel)
    {
      AddNode(q.1);
      var edge := AgencyEdge(rel);
      var from := GetNode(q.0);
      var to := GetNode(q.1.uuid);
      if from.Some? && to.Some? {
        AddEdge(from.value, to.value, edge);
      }
    }

    /** The second loop of both agency passes, over the collected entries. */
    method AttachAgents(entries: seq<(string, Node)>, rel: string)
      requires Valid()
      requires forall i :: 0 <= i < |entries| ==> entries[i].1.kind == "agent" && AllAlnum(entries[i].1.uuid)
      modifies this
      ensures Valid() && stashedEdges == old(stashedEdges)
      ensures AgentsAttached(old(nodes), old(edges), nodes, edges, EntrySet(entries), rel)
    {
      var i := 0;
      assert EntrySet(entries[..0]) == {};
      while i < |entries|
        invariant 0 <= i <= |entries|
        invariant Valid() && stashedEdges == old(stashedEdges)
        invariant AgentsAttached(old(nodes), old(edges), nodes, edges, EntrySet(entries[..i]), rel)
        decreases |entries| - i
      {
        var q := entries[i];
        AttachStep(old(nodes), old(edges), nodes, edges, EntrySet(entries[..i]), q, rel);
        AttachEntry(q, rel);
        EntrySetSnoc(entries, i);
        i := i + 1;
      }
      assert entries[..|entries|] == entries;
    }
  }

  /** The first loop of both agency passes: for each source node, the agent
      named by `name` applied to its value; the first name that cannot be
      cut out aborts the loop. */
  method CollectAgents(sources: set<Node>, name: string -> Result<string, StringError>)
    returns (r: Result<seq<(string, Node)>, StringError>)
    ensures r.Ok? <==> forall a :: a in sources ==> name(a.value).Ok?
    ensures r.Ok? ==> EntrySet(r.value) ==
                      set a | a in sources && name(a.value).Ok? :: (a.uuid, AgentFor(name(a.value).value))
    ensures r.Ok? ==> forall i :: 0 <= i < |r.value| ==>
                        r.value[i].1.kind == "agent" && AllAlnum(r.value[i].1.uuid)
  {
    var entries: seq<(string, Node)> := [];
    var rest := sources;
    while rest != {}
      invariant rest <= sources
      invariant forall a :: a in sources - rest ==> name(a.value).Ok?
      invariant EntrySet(entries) ==
                set a | a in sources - rest && name(a.value).Ok? :: (a.uuid, AgentFor(name(a.value).value))
      invariant forall i :: 0 <= i < |entries| ==> entries[i].1.kind == "agent" && AllAlnum(entries[i].1.uuid)
      decreases |rest|
    {
      var a :| a in rest;
      var n := name(a.value);
      if n.Err? {
        return Err(n.error);
      }
      var agent := AgentFor(n.value);
      EntrySetAppend(entries, (a.uuid, agent));
      entries := entries + [(a.uuid, agent)];
      rest := rest - {a};
    }
    r := Ok(entries);
  }

  lemma EntrySetAppend(entries: seq<(string, Node)>, q: (string, Node))
    ensures EntrySet(entries + [q]) == EntrySet(entries) + {q}
  {
    var e' := entries + [q];
    assert forall i :: 0 <= i < |entries| ==> e'[i] == entries[i];
    assert e'[|entries|] == q;
  }

  function EntrySet(entries: seq<(string, Node)>): set<(string, Node)>
  {
    set i | 0 <= i < |entries| :: entries[i]
  }

  lemma EdgesAvoidingTwice(edges: map<Pair, Edge>, gone: set<string>, k: string)
    ensures EdgesAvoiding(EdgesAvoiding(edges, gone), {k}) == EdgesAvoiding(edges, gone + {k})
  {
  }

  /** The vertices without an edge. */
  function Orphans(nodes: map<string, Node>, edges: map<Pair, Edge>): set<string>
  {
    set k | k in nodes && !HasIncidentEdge(edges, k)
  }

  /** Removing the orphans is what `WithoutOrphans` keeps, and it touches no edge. */
  lemma OrphansRemoved(nodes: map<string, Node>, edges: map<Pair, Edge>)
    ensures nodes - Orphans(nodes, edges) == WithoutOrphans(nodes, edges)
    ensures EdgesAvoiding(edges, Orphans(nodes, edges)) == edges
  {
    var O := Orphans(nodes, edges);
    forall p | p in edges
      ensures p.0 !in O && p.1 !in O
    {
      assert HasIncidentEdge(edges, p.0) && HasIncidentEdge(edges, p.1);
    }
  }

  lemma EntrySetSnoc(entries: seq<(string, Node)>, i: nat)
    requires i < |entries|
    ensures EntrySet(entries[..i + 1]) == EntrySet(entries[..i]) + {entries[i]}
  {
    assert entries[..i + 1] == entries[..i] + [entries[i]];
  }

  lemma IdleActivitiesByValue(nodes: map<string, Node>, edges: map<Pair, Edge>,
                              activities: set<Node>, idle: set<string>)
    requires forall k :: k in nodes ==> nodes[k].uuid == k
    requires activities == OfKind(nodes.Values, "activity")
    requires idle == set a | a in activities && !HasEffect(edges, a.uuid) :: a.uuid
    ensures idle == IdleActivities(nodes, edges)
  {
    forall k | k in IdleActivities(nodes, edges)
      ensures k in idle
    {
      assert nodes[k] in activities;
    }
  }

  lemma NodeFiledUnderUuid(nodes: map<string, Node>, v: Node)
    requires forall k :: k in nodes ==> nodes[k].uuid == k
    requires v in nodes.Values
    ensures v.uuid in nodes && nodes[v.uuid] == v
  {
    var k :| k in nodes && nodes[k] == v;
  }

  /** A node of the graph is filed under a uuid of `S` exactly when its own uuid is in `S`. */
  lemma NodesOfMembers(nodes: map<string, Node>, S: set<string>)
    requires forall k :: k in nodes ==> nodes[k].uuid == k
    ensures NodesOf(nodes, S) <= nodes.Values
    ensures forall v :: v in nodes.Values ==> (v in NodesOf(nodes, S) <==> v.uuid in S)
  {
    forall v | v in nodes.Values
      ensures v in NodesOf(nodes, S) <==> v.uuid in S
    {
      NodeFiledUnderUuid(nodes, v);
    }
  }

  /** All the uuids of the graph name all its nodes. */
  lemma NodesOfKeys(nodes: map<string, Node>)
    ensures NodesOf(nodes, nodes.Keys) == nodes.Values
  {
  }

  /** Since nodes are filed under their own uuid, narrowing the uuids narrows the nodes alike. */
  lemma NodesOfIntersect(nodes: map<string, Node>, A: set<string>, B: set<string>)
    requires forall k :: k in nodes ==> nodes[k].uuid == k
    ensures NodesOf(nodes, A * B) == NodesOf(nodes, A) * NodesOf(nodes, B)
  {
    NodesOfMembers(nodes, A * B);
    NodesOfMembers(nodes, A);
    NodesOfMembers(nodes, B);
  }

  lemma DescendantsDuality(nodes: map<string, Node>, edges: map<Pair, Edge>, n: string)
    requires GraphOk(nodes, edges)
    ensures forall v :: v in nodes.Values ==>
              (v in NodesOf(nodes, ReachingNodes(nodes, edges, n)) <==>
               n in nodes && nodes[n] in NodesOf(nodes, Desc(edges.Keys, v.uuid)))
  {
    forall v | v in nodes.Values
      ensures v in NodesOf(nodes, ReachingNodes(nodes, edges, n)) <==>
              n in nodes && nodes[n] in NodesOf(nodes, Desc(edges.Keys, v.uuid))
    {
      NodeFiledUnderUuid(nodes, v);
      DescInGraph(nodes, edges, v.uuid);
      if v in NodesOf(nodes, ReachingNodes(nodes, edges, n)) {
        var k :| k in ReachingNodes(nodes, edges, n) && k in nodes && nodes[k] == v;
        assert k == v.uuid;
      }
      if n in nodes && nodes[n] in NodesOf(nodes, Desc(edges.Keys, v.uuid)) {
        var k :| k in Desc(edges.Keys, v.uuid) && k in nodes && nodes[k] == nodes[n];
        assert k == n;
        assert v.uuid in ReachingNodes(nodes, edges, n);
      }
    }
  }

  lemma PushAssoc(s0: seq<StashedEdge>, part: seq<StashedEdge>, entry: StashedEdge)
    ensures (s0 + part) + [entry] == s0 + (part + [entry])
  {
  }

  /** The edges still in the graph while the stash loop has `todo` left to visit. */
  function KeptSoFar(E0: map<Pair, Edge>, todo: set<Pair>): map<Pair, Edge>
  {
    map p | p in E0 && (p in todo || !IsNonDependency(E0[p])) :: E0[p]
  }

  /** The edges already stashed while the stash loop has `todo` left to visit. */
  function StashedSoFar(E0: map<Pair, Edge>, todo: set<Pair>): map<Pair, Edge>
  {
    map p | p in E0 && p !in todo && IsNonDependency(E0[p]) :: E0[p]
  }

  lemma StashStep(nodes: map<string, Node>, E0: map<Pair, Edge>, todo: set<Pair>, p: Pair)
    requires GraphOk(nodes, E0)
    requires todo <= E0.Keys && p in todo
    ensures p in KeptSoFar(E0, todo) && KeptSoFar(E0, todo)[p] == E0[p]
    ensures p.0 in nodes && p.1 in nodes && nodes[p.0].uuid == p.0 && nodes[p.1].uuid == p.1
    ensures IsNonDependency(E0[p]) ==>
              KeptSoFar(E0, todo - {p}) == KeptSoFar(E0, todo) - {p} &&
              StashedSoFar(E0, todo - {p}) == StashedSoFar(E0, todo)[p := E0[p]] &&
              p !in StashedSoFar(E0, todo)
    ensures !IsNonDependency(E0[p]) ==>
              KeptSoFar(E0, todo - {p}) == KeptSoFar(E0, todo) &&
              StashedSoFar(E0, todo - {p}) == StashedSoFar(E0, todo)
  {
  }

  lemma ListsEdgesPush(part: seq<StashedEdge>, nodes: map<string, Node>,
                       R: map<Pair, Edge>, entry: StashedEdge)
    requires ListsEdges(part, nodes, R)
    requires PairOf(entry) !in R
    requires entry.from.uuid in nodes && nodes[entry.from.uuid] == entry.from
    requires entry.to.uuid in nodes && nodes[entry.to.uuid] == entry.to
    ensures ListsEdges(part + [entry], nodes, R[PairOf(entry) := entry.edge])
  {
    var part' := part + [entry];
    assert forall i :: 0 <= i < |part| ==> part'[i] == part[i];
    assert StackPairs(part') == StackPairs(part) + {PairOf(entry)} by {
      forall q | q in StackPairs(part')
        ensures q in StackPairs(part) + {PairOf(entry)}
      {
        var i :| 0 <= i < |part'| && PairOf(part'[i]) == q;
        if i < |part| {
          assert PairOf(part[i]) == q;
        }
      }
      forall q | q in StackPairs(part)
        ensures q in StackPairs(part')
      {
        var i :| 0 <= i < |part| && PairOf(part[i]) == q;
        assert PairOf(part'[i]) == q;
      }
      assert PairOf(part'[|part|]) == PairOf(entry);
    }
    forall i, j | 0 <= i < j < |part'|
      ensures PairOf(part'[i]) != PairOf(part'[j])
    {
      if j == |part| {
        assert PairOf(part[i]) in StackPairs(part);
      }
    }
  }
}

# PicoSDN provenance core in Dafny

PicoSDN records data provenance for an SDN controller (ONOS). While the
controller dispatches events and packets, a recorder service writes W3C PROV
records. Activities stand for listener and processor runs. Entities stand for
flow rules, hosts and packets. Relations join them: `used`, `wasGeneratedBy`,
`wasRevisionOf`, `wasDerivedFrom`, and so on. An offline analysis loads these
records into a directed acyclic graph and answers dependency queries on it.

This project models that core and proves properties of the model:

- **The analysis graph** (`ProvGraph`, `ProvGraphSpec`, `Reachability`):
  adding nodes and edges keeps the graph acyclic; stash/unstash restores the
  removed edges exactly; the ancestry, descendant, common-ancestry and
  backward-forward traces; the pruning passes; the agency passes.
- **The PROV objects and their text forms** (`ProvObjects`, `ProvText`):
  JSON and PROV-N renderers, with parsers that read each record back.
- **The recorder** (`ProvRecorder`): the entity registry, the running-activity
  table, the cookie table, and the relations written for dispatches, listener
  runs, API calls and derivations.
- **The hook** (`Hook`) that forwards the controller's calls to the recorder.
- **The packet service's processor list and dispatch loop** (`Packets`).
- **Flow rules and their builder** (`FlowRules`).
- **The fabric pipeline's treatment interpreter** (`FabricTreatment`).
- **Connection points** (`ConnectPoints`) and **hosts** (`Hosts`).
- **Java's string and number semantics**, written out where the code relies on
  them (`JavaStrings`, `JavaNumbers`).

Objects whose fields the code updates are classes with `modifies` frames:
the graph, the recorder, the hook, the packet manager, processor entries,
flow rules and their builder, and hosts. The scans that overwrite a local
per matching instruction are methods with loops, proved against reference
functions. Everything else is functions on datatypes.

Where the design description and the code disagree, the model follows the code:

- An update whose before and after entities are both present always records
  `wasRevisionOf`. The "same value" branch of `handleUpdate` compares a
  `String` with an entity, so it never fires.
- `backwardForwardTrace` uses as root causes the nodes from which the node of
  interest is reachable. Each of them maps to the entities it reaches. This is
  the reverse of the method's own doc comment.

## Model

| member | source | states |
|---|---|---|
| ProvGraph.W3CProvGraph.constructor | picosdn-analysis/src/main/java/edu/mit/ll/provsdnanalysis/W3CProvGraph.java:36-39 | a new graph has no nodes, no edges and an empty stash |
| ProvGraph.W3CProvGraph.AddNode | picosdn-analysis/src/main/java/edu/mit/ll/provsdnanalysis/W3CProvGraph.java:46-50 | a node whose uuid is present leaves the graph unchanged, otherwise it is filed under its uuid; uuids stay unique |
| ProvGraph.W3CProvGraph.GetNode | picosdn-analysis/src/main/java/edu/mit/ll/provsdnanalysis/W3CProvGraph.java:58-65 | the node whose uuid is given, or none when no node has it |
| ProvGraph.W3CProvGraph.AddEdge | picosdn-analysis/src/main/java/edu/mit/ll/provsdnanalysis/W3CProvGraph.java:277-294 | no self-loop; at most one edge per ordered pair, a repeat replacing it; an edge that would close a cycle or lacks an end point is dropped; the graph stays acyclic |
| ProvGraph.W3CProvGraph.RemoveNode | picosdn-analysis/src/main/java/edu/mit/ll/provsdnanalysis/W3CProvGraph.java:310-312 | the vertex and every edge touching it are removed, nothing else |
| ProvGraph.W3CProvGraph.StashNonDependencyEdges | picosdn-analysis/src/main/java/edu/mit/ll/provsdnanalysis/W3CProvGraph.java:319-329 | afterwards no wasRevisionOf/invalidates edge remains, the other edges are untouched, and the stash gains a listing of exactly the removed edges |
| ProvGraph.W3CProvGraph.StashVisit | picosdn-analysis/src/main/java/edu/mit/ll/provsdnanalysis/W3CProvGraph.java:321-328 | one turn of that loop: a revision or invalidation edge is pushed and removed, any other edge is left in place, and the nodes do not change |
| ProvGraph.W3CProvGraph.UnstashNonDependencyEdges | picosdn-analysis/src/main/java/edu/mit/ll/provsdnanalysis/W3CProvGraph.java:334-340 | the stash is emptied and its edges are replayed through addEdge, last first |
| ProvGraphSpec.StashRoundTrip | picosdn-analysis/src/main/java/edu/mit/ll/provsdnanalysis/W3CProvGraph.java:319-340 | stashing then unstashing restores exactly the original edge map |
| ProvGraphSpec.ReplayRestores | picosdn-analysis/src/main/java/edu/mit/ll/provsdnanalysis/W3CProvGraph.java:334-340 | replaying a listing of edges missing from a well-formed graph adds every one back, since none closes a cycle |
| ProvGraphSpec.UnstashedAppend | picosdn-analysis/src/main/java/edu/mit/ll/provsdnanalysis/W3CProvGraph.java:334-340 | popping a stack of two parts replays the top part first, then the rest |
| ProvGraphSpec.AddedEdgesOk | picosdn-analysis/src/main/java/edu/mit/ll/provsdnanalysis/W3CProvGraph.java:277-294 | addEdge keeps the graph well formed and acyclic |
| ProvGraphSpec.AddedEdgesIffAcyclic | picosdn-analysis/src/main/java/edu/mit/ll/provsdnanalysis/W3CProvGraph.java:277-294 | between two distinct nodes the edge is installed exactly when the graph with it is still acyclic, and otherwise nothing changes |
| ProvGraphSpec.AddedEdgesShape | picosdn-analysis/src/main/java/edu/mit/ll/provsdnanalysis/W3CProvGraph.java:277-294 | addEdge changes at most the entry of the pair it was given |
| ProvGraph.W3CProvGraph.GetAncestryOfNode | picosdn-analysis/src/main/java/edu/mit/ll/provsdnanalysis/W3CProvGraph.java:198-204 | a node not in the graph is refused; otherwise exactly the graph nodes reachable from it along a non-empty path, closed under successors |
| ProvGraph.W3CProvGraph.GetDescendantsOfNode | picosdn-analysis/src/main/java/edu/mit/ll/provsdnanalysis/W3CProvGraph.java:212-218 | a node not in the graph is refused; otherwise exactly the graph nodes whose ancestry contains the node |
| ProvGraph.DescendantsDuality | picosdn-analysis/src/main/java/edu/mit/ll/provsdnanalysis/W3CProvGraph.java:198-218 | m is a descendant of n exactly when n is in the ancestry of m |
| ProvGraph.W3CProvGraph.FilterByKind | picosdn-analysis/src/main/java/edu/mit/ll/provsdnanalysis/W3CProvGraph.java:226-234 | the nodes of the set whose PROV type is the given one |
| ProvGraph.W3CProvGraph.FilterEntities | picosdn-analysis/src/main/java/edu/mit/ll/provsdnanalysis/W3CProvGraph.java:226-234 | the entity nodes of the set |
| ProvGraph.W3CProvGraph.FilterActivities | picosdn-analysis/src/main/java/edu/mit/ll/provsdnanalysis/W3CProvGraph.java:242-250 | the activity nodes of the set |
| ProvGraph.W3CProvGraph.FilterAgents | picosdn-analysis/src/main/java/edu/mit/ll/provsdnanalysis/W3CProvGraph.java:258-266 | the agent nodes of the set |
| ProvGraph.W3CProvGraph.GetNodesByValue | picosdn-analysis/src/main/java/edu/mit/ll/provsdnanalysis/W3CProvGraph.java:91-100 | the nodes of the set whose value contains the given text |
| ProvGraph.W3CProvGraph.CommonAncestryTrace | picosdn-analysis/src/main/java/edu/mit/ll/provsdnanalysis/W3CProvGraph.java:108-137 | with non-dependency edges set aside, the nodes reachable from every piece of evidence, split into agents, activities and entities, and the edges restored; evidence not in the graph fails and leaves those edges stashed and out of the graph |
| ProvGraph.W3CProvGraph.CommonAncestryOf | picosdn-analysis/src/main/java/edu/mit/ll/provsdnanalysis/W3CProvGraph.java:117-127 | every graph node, narrowed by each piece of evidence's ancestry: the common ancestors; fails exactly when some evidence is not in the graph |
| ProvGraphSpec.CommonAncestorsExcludeEvidence | picosdn-analysis/src/main/java/edu/mit/ll/provsdnanalysis/W3CProvGraph.java:108-137 | no piece of evidence is its own common ancestor |
| ProvGraphSpec.CommonAncestorsClosed | picosdn-analysis/src/main/java/edu/mit/ll/provsdnanalysis/W3CProvGraph.java:108-137 | whatever a common ancestor reaches is a common ancestor too |
| ProvGraphSpec.CommonAncestorsUnion | picosdn-analysis/src/main/java/edu/mit/ll/provsdnanalysis/W3CProvGraph.java:108-137 | more evidence can only narrow the common ancestry |
| ProvGraph.W3CProvGraph.ForwardTraces | picosdn-analysis/src/main/java/edu/mit/ll/provsdnanalysis/W3CProvGraph.java:358-367 | each ancestor, a node of the graph, maps to the entities it reaches |
| ProvGraph.W3CProvGraph.BackwardForwardTrace | picosdn-analysis/src/main/java/edu/mit/ll/provsdnanalysis/W3CProvGraph.java:352-369 | every entity from which the node is reachable maps to the entities it reaches, computed without non-dependency edges, and the edges are restored; a node not in the graph fails and leaves those edges stashed and out of the graph |
| ProvGraphSpec.BackwardForwardCovers | picosdn-analysis/src/main/java/edu/mit/ll/provsdnanalysis/W3CProvGraph.java:352-369 | the node is never its own root cause, and every root cause's trace covers what the node reaches |
| ProvGraph.W3CProvGraph.RemoveNodes | picosdn-analysis/src/main/java/edu/mit/ll/provsdnanalysis/W3CProvGraph.java:389-391 | the given vertices and every edge touching them are removed |
| ProvGraph.W3CProvGraph.CollectOrphans | picosdn-analysis/src/main/java/edu/mit/ll/provsdnanalysis/W3CProvGraph.java:384-388 | exactly the vertices without an edge |
| ProvGraph.W3CProvGraph.RemoveOrphanNodes | picosdn-analysis/src/main/java/edu/mit/ll/provsdnanalysis/W3CProvGraph.java:382-392 | every node without an edge is removed, and no edge changes |
| ProvGraph.OrphansRemoved | picosdn-analysis/src/main/java/edu/mit/ll/provsdnanalysis/W3CProvGraph.java:382-392 | removing the orphans leaves exactly the orphan-free node map and touches no edge |
| ProvGraphSpec.WithoutOrphansSound | picosdn-analysis/src/main/java/edu/mit/ll/provsdnanalysis/W3CProvGraph.java:382-392 | dropping the orphans keeps the graph well formed |
| ProvGraphSpec.WithoutOrphansTwice | picosdn-analysis/src/main/java/edu/mit/ll/provsdnanalysis/W3CProvGraph.java:382-392 | a second orphan pass changes nothing |
| ProvGraph.W3CProvGraph.HasEffectEdge | picosdn-analysis/src/main/java/edu/mit/ll/provsdnanalysis/W3CProvGraph.java:411-418 | true exactly when some edge of the node is wasGeneratedBy or invalidates |
| ProvGraph.W3CProvGraph.CollectIdleActivities | picosdn-analysis/src/main/java/edu/mit/ll/provsdnanalysis/W3CProvGraph.java:408-422 | exactly the activities without an effect edge |
| ProvGraph.W3CProvGraph.RemoveActivitiesWithoutEffect | picosdn-analysis/src/main/java/edu/mit/ll/provsdnanalysis/W3CProvGraph.java:406-426 | every activity without an effect edge goes, with its edges, and nothing else |
| ProvGraph.IdleActivitiesByValue | picosdn-analysis/src/main/java/edu/mit/ll/provsdnanalysis/W3CProvGraph.java:408-422 | the idle activities read off the nodes' values are those of the node map |
| ProvGraphSpec.PruneIdleActivitiesSound | picosdn-analysis/src/main/java/edu/mit/ll/provsdnanalysis/W3CProvGraph.java:406-426 | pruning keeps the graph well formed, removes no other node, and leaves every activity with an effect, so a second pass changes nothing |
| ProvGraph.W3CProvGraph.RemovePacketFlowDependency | picosdn-analysis/src/main/java/edu/mit/ll/provsdnanalysis/W3CProvGraph.java:476-492 | the outgoing derivation edges of the inbound-packet nodes are removed, and nothing else |
| ProvGraphSpec.WithoutPacketDerivationsSound | picosdn-analysis/src/main/java/edu/mit/ll/provsdnanalysis/W3CProvGraph.java:476-492 | afterwards no inbound packet derives from anything, other edges are untouched, and the graph stays well formed |
| ProvGraph.W3CProvGraph.AddAppAgency | picosdn-analysis/src/main/java/edu/mit/ll/provsdnanalysis/W3CProvGraph.java:431-469 | fails, changing nothing, when some activity's value has no `$`; otherwise every activity gets its application's agent |
| ProvGraph.W3CProvGraph.AddSwitchportAgency | picosdn-analysis/src/main/java/edu/mit/ll/provsdnanalysis/W3CProvGraph.java:499-544 | fails, changing nothing, when some packet's port cannot be cut out; otherwise every inbound packet gets its port's agent |
| ProvGraph.W3CProvGraph.FilterInboundPackets | picosdn-analysis/src/main/java/edu/mit/ll/provsdnanalysis/W3CProvGraph.java:509-510 | the inbound-packet nodes of the set |
| ProvGraph.CollectAgents | picosdn-analysis/src/main/java/edu/mit/ll/provsdnanalysis/W3CProvGraph.java:437-449 | the first source whose name cannot be cut out aborts; otherwise every source is paired with the agent for its name |
| ProvGraph.W3CProvGraph.AttachEntry | picosdn-analysis/src/main/java/edu/mit/ll/provsdnanalysis/W3CProvGraph.java:455-466 | the agent node is added, then the agency edge when both ends are present |
| ProvGraph.W3CProvGraph.AttachAgents | picosdn-analysis/src/main/java/edu/mit/ll/provsdnanalysis/W3CProvGraph.java:454-467 | old nodes and edges stay, every agent is added, every new edge is an agency edge; when agents are sinks every pair gets its edge |
| ProvGraphSpec.AttachStepSafe | picosdn-analysis/src/main/java/edu/mit/ll/provsdnanalysis/W3CProvGraph.java:455-466 | one more attachment keeps the safety half of the agency invariant |
| ProvGraphSpec.AttachStepExact | picosdn-analysis/src/main/java/edu/mit/ll/provsdnanalysis/W3CProvGraph.java:455-466 | with agents as sinks and a non-agent source, the step installs its agency edge |
| ProvGraphSpec.AttachStepKeeps | picosdn-analysis/src/main/java/edu/mit/ll/provsdnanalysis/W3CProvGraph.java:455-466 | in that case the agency edges of the earlier pairs also survive the step, and agents stay sinks |
| ProvGraphSpec.AppNameSpec | picosdn-analysis/src/main/java/edu/mit/ll/provsdnanalysis/W3CProvGraph.java:440 | the application name is defined exactly when the value has a `$`, and is the text before the first `$` |
| ProvGraphSpec.PortNameSpec | picosdn-analysis/src/main/java/edu/mit/ll/provsdnanalysis/W3CProvGraph.java:513-514 | the port is defined exactly when the value has a comma and its first `=`, if any, comes before its first comma; it is the text after that `=` (or from the start) up to the first comma |
| Reachability.AddEdgeKeepsAcyclic | picosdn-analysis/src/main/java/edu/mit/ll/provsdnanalysis/W3CProvGraph.java:277-294 | an edge from a to b, with a not reachable from b, keeps an acyclic graph acyclic |
| ProvGraphSpec.StashLive | picosdn-analysis/src/main/java/edu/mit/ll/provsdnanalysis/W3CProvGraph.java:319-329 | the as-written loop over the live edge view fails exactly when a non-dependency edge is met before the last edge visited |
| ProvGraphSpec.StashLiveThrows | picosdn-analysis/src/main/java/edu/mit/ll/provsdnanalysis/W3CProvGraph.java:319-329 | a revision edge visited before a usage edge makes the as-written loop fail, where the snapshot stashes one and keeps the other |
| ProvObjects.TypeStringRoundTrip | picosdn-collection/onos-app-provsdn/src/main/java/edu/mit/ll/provsdn/W3CProvRelation.java:50-71 | every relation type's PROV-N name reads back as that type, and only that name does |
| ProvObjects.TypeStringInjective | picosdn-collection/onos-app-provsdn/src/main/java/edu/mit/ll/provsdn/W3CProvRelation.java:50-71 | distinct relation types have distinct names |
| ProvObjects.TypeStringReadable | picosdn-collection/onos-app-provsdn/src/main/java/edu/mit/ll/provsdn/W3CProvRelation.java:50-71 | every name is non-empty, needs no escaping and has no `(` |
| ProvObjects.W3CProvEntity.constructor | picosdn-collection/onos-app-provsdn/src/main/java/edu/mit/ll/provsdn/W3CProvEntity.java:24-33 | the fields are the arguments and the timestamp is the clock reading |
| ProvObjects.W3CProvEntity.SetUuid | picosdn-collection/onos-app-provsdn/src/main/java/edu/mit/ll/provsdn/W3CProvEntity.java:40-42 | only the uuid changes |
| ProvObjects.W3CProvEntity.SetEntity | picosdn-collection/onos-app-provsdn/src/main/java/edu/mit/ll/provsdn/W3CProvEntity.java:48-50 | only the entity changes |
| ProvObjects.W3CProvEntity.SetName | picosdn-collection/onos-app-provsdn/src/main/java/edu/mit/ll/provsdn/W3CProvEntity.java:58-60 | only the name changes |
| ProvObjects.W3CProvEntity.SetValue | picosdn-collection/onos-app-provsdn/src/main/java/edu/mit/ll/provsdn/W3CProvEntity.java:68-70 | only the value changes |
| ProvObjects.W3CProvEntity.ToProvN | picosdn-collection/onos-app-provsdn/src/main/java/edu/mit/ll/provsdn/W3CProvEntity.java:73-78 | the PROV-N element reads back as the uuid and its name, value and ts attributes |
| ProvObjects.W3CProvEntity.ToJson | picosdn-collection/onos-app-provsdn/src/main/java/edu/mit/ll/provsdn/W3CProvEntity.java:80-84 | the JSON object reads back as type, uuid, name, value and ts, in that order |
| ProvObjects.W3CProvActivity.constructor | picosdn-collection/onos-app-provsdn/src/main/java/edu/mit/ll/provsdn/W3CProvActivity.java:27-36 | the fields are the arguments and the timestamp is the clock reading |
| ProvObjects.W3CProvActivity.SetUuid | picosdn-collection/onos-app-provsdn/src/main/java/edu/mit/ll/provsdn/W3CProvActivity.java:43-45 | only the uuid changes |
| ProvObjects.W3CProvActivity.SetActivity | picosdn-collection/onos-app-provsdn/src/main/java/edu/mit/ll/provsdn/W3CProvActivity.java:51-53 | only the activity changes |
| ProvObjects.W3CProvActivity.SetName | picosdn-collection/onos-app-provsdn/src/main/java/edu/mit/ll/provsdn/W3CProvActivity.java:61-63 | only the name changes |
| ProvObjects.W3CProvActivity.SetValue | picosdn-collection/onos-app-provsdn/src/main/java/edu/mit/ll/provsdn/W3CProvActivity.java:71-73 | only the value changes |
| ProvObjects.W3CProvActivity.ToProvN | picosdn-collection/onos-app-provsdn/src/main/java/edu/mit/ll/provsdn/W3CProvActivity.java:76-80 | the PROV-N element reads back as the uuid with only name and ts attributes |
| ProvObjects.W3CProvActivity.ToJson | picosdn-collection/onos-app-provsdn/src/main/java/edu/mit/ll/provsdn/W3CProvActivity.java:82-86 | the JSON object reads back as type, uuid, name, value and ts, in that order |
| ProvObjects.W3CProvRelation.constructor | picosdn-collection/onos-app-provsdn/src/main/java/edu/mit/ll/provsdn/W3CProvRelation.java:17-24 | the ends, type and timestamp are the arguments |
| ProvObjects.W3CProvRelation.ToProvN | picosdn-collection/onos-app-provsdn/src/main/java/edu/mit/ll/provsdn/W3CProvRelation.java:38-41 | the PROV-N relation reads back as the type name, then the from end's uuid, then the to end's |
| ProvObjects.W3CProvRelation.ToJson | picosdn-collection/onos-app-provsdn/src/main/java/edu/mit/ll/provsdn/W3CProvRelation.java:43-48 | the JSON object reads back as type, from, to and ts, in that order |
| ProvObjects.EntityJsonReadable | picosdn-collection/onos-app-provsdn/src/main/java/edu/mit/ll/provsdn/W3CProvEntity.java:80-84 | an entity record parses back to its five members |
| ProvObjects.ActivityJsonReadable | picosdn-collection/onos-app-provsdn/src/main/java/edu/mit/ll/provsdn/W3CProvActivity.java:82-86 | an activity record parses back to its five members |
| ProvObjects.RelationJsonReadable | picosdn-collection/onos-app-provsdn/src/main/java/edu/mit/ll/provsdn/W3CProvRelation.java:43-48 | a relation record parses back to its four members |
| ProvObjects.RelationProvNReadable | picosdn-collection/onos-app-provsdn/src/main/java/edu/mit/ll/provsdn/W3CProvRelation.java:38-41 | a relation's PROV-N form parses back to its type name and ends |
| ProvObjects.EntityProvNReadable | picosdn-collection/onos-app-provsdn/src/main/java/edu/mit/ll/provsdn/W3CProvEntity.java:73-78 | an entity's PROV-N form parses back to its uuid and three attributes |
| ProvObjects.ActivityProvNReadable | picosdn-collection/onos-app-provsdn/src/main/java/edu/mit/ll/provsdn/W3CProvActivity.java:76-80 | an activity's PROV-N form parses back to its uuid and two attributes |
| ProvText.JsonRoundTrip | picosdn-collection/onos-app-provsdn/src/main/java/edu/mit/ll/provsdn/W3CProvEntity.java:80-84 | a flat JSON object written from plain strings reads back as its members, in order |
| ProvText.ProvNElementRoundTrip | picosdn-collection/onos-app-provsdn/src/main/java/edu/mit/ll/provsdn/W3CProvEntity.java:73-78 | a PROV-N element reads back as its kind, id and attributes |
| ProvText.ProvNRelationRoundTrip | picosdn-collection/onos-app-provsdn/src/main/java/edu/mit/ll/provsdn/W3CProvRelation.java:38-41 | a PROV-N relation reads back as its kind and two ends |
| ProvObjects.ProvEntity.SetEntityUuid | picosdn-collection/core/api/src/main/java/org/onosproject/net/flow/DefaultFlowRule.java:551-554 | the uuid slot holds the value set |
| ProvRecorder.UuidForInjective | picosdn-collection/onos-app-provsdn/src/main/java/edu/mit/ll/provsdn/ProvManager.java:116 | distinct counter readings give distinct fresh uuids |
| ProvRecorder.ProvManager.constructor | picosdn-collection/onos-app-provsdn/src/main/java/edu/mit/ll/provsdn/ProvManager.java:70-82 | empty registry, listener table, cookie table and output |
| ProvRecorder.ProvManager.FreshUuid | picosdn-collection/onos-app-provsdn/src/main/java/edu/mit/ll/provsdn/ProvManager.java:352 | a uuid never drawn before; only the counter advances |
| ProvRecorder.ProvManager.WriteOut | picosdn-collection/onos-app-provsdn/src/main/java/edu/mit/ll/provsdn/ProvManager.java:591-594 | the line is appended to the output, nothing else changes |
| ProvRecorder.ProvManager.GetOrInitializeEntity | picosdn-collection/onos-app-provsdn/src/main/java/edu/mit/ll/provsdn/ProvManager.java:340-372 | the registered record for the key; a first call gives the entity a uuid if it has none, registers and files the record and writes it once |
| ProvRecorder.RecordOfRegistered | picosdn-collection/onos-app-provsdn/src/main/java/edu/mit/ll/provsdn/ProvManager.java:340-372 | the record a registration hands back is the one then filed under the key, and a first registration's entity line carries its uuid |
| ProvRecorder.AfterRegisterMemoised | picosdn-collection/onos-app-provsdn/src/main/java/edu/mit/ll/provsdn/ProvManager.java:340-372 | registering a key a second time changes nothing |
| ProvRecorder.AfterRegisterWritesOnce | picosdn-collection/onos-app-provsdn/src/main/java/edu/mit/ll/provsdn/ProvManager.java:340-372 | a first registration writes exactly the entity's record and files it under its key |
| ProvRecorder.ProvManager.UpdateActiveListener | picosdn-collection/onos-app-provsdn/src/main/java/edu/mit/ll/provsdn/ProvManager.java:418-425 | the listener's running activity becomes the given one, nothing else changes |
| ProvRecorder.ProvManager.FindActivity | picosdn-collection/onos-app-provsdn/src/main/java/edu/mit/ll/provsdn/ProvManager.java:262-270 | the running activity of the first stack frame that has one, or none |
| ProvRecorder.FirstActiveSpec | picosdn-collection/onos-app-provsdn/src/main/java/edu/mit/ll/provsdn/ProvManager.java:262-270 | none exactly when no frame has an activity, otherwise the first frame's |
| ProvRecorder.ProvManager.HandleCreate | picosdn-collection/onos-app-provsdn/src/main/java/edu/mit/ll/provsdn/ProvManager.java:567-584 | nothing for a null entity; otherwise it is registered and wasGeneratedBy is written when an activity runs, naming the registered record or, for a new key, the uuid its own line was written with |
| ProvRecorder.ProvManager.HandleRead | picosdn-collection/onos-app-provsdn/src/main/java/edu/mit/ll/provsdn/ProvManager.java:542-559 | nothing for a null entity; otherwise it is registered and used is written when an activity runs, naming the registered record or, for a new key, the uuid its own line was written with |
| ProvRecorder.ProvManager.HandleUpdate | picosdn-collection/onos-app-provsdn/src/main/java/edu/mit/ll/provsdn/ProvManager.java:454-532 | (null, x) creates x; no after entity writes nothing; two entities give wasRevisionOf(new, old), then wasGeneratedBy when an activity runs; each entity end is its registered record, the second one looked up after the first registration |
| ProvRecorder.ProvManager.RecordApiCall | picosdn-collection/onos-app-provsdn/src/main/java/edu/mit/ll/provsdn/ProvManager.java:255-297 | the first running activity on the stack is used, the call is handled by its kind, and a delete writes nothing (handleDelete :436-440); the entity ends are the records the handlers register |
| ProvRecorder.ProvManager.RecordDerivation | picosdn-collection/onos-app-provsdn/src/main/java/edu/mit/ll/provsdn/ProvManager.java:313-325 | for two entities, both are registered and wasDerivedFrom(child, parent) is written between their records; otherwise nothing |
| ProvRecorder.ProvManager.Derivation | picosdn-collection/onos-app-provsdn/src/main/java/edu/mit/ll/provsdn/ProvManager.java:315-320 | child then parent are registered, and wasDerivedFrom names the child's record and the parent's record as registered after the child |
| ProvRecorder.ProvManager.RecordDispatch | picosdn-collection/onos-app-provsdn/src/main/java/edu/mit/ll/provsdn/ProvManager.java:107-169 | a fresh activity uuid; wasRevisionOf for a host event with both versions; wasDerivedFrom(packet, rule) for a known cookie; throws exactly for a packet without cookie; every entity end is the record registered for it, after the uuid draw |
| ProvRecorder.ProvManager.HostRevision | picosdn-collection/onos-app-provsdn/src/main/java/edu/mit/ll/provsdn/ProvManager.java:120-141 | the old then the new version is registered, and wasRevisionOf(new, old) names their records, each the registered one or a new one with the uuid its line was written with; also the two-entity path of handleUpdate (:504-511) |
| ProvRecorder.ProvManager.PacketDerivation | picosdn-collection/onos-app-provsdn/src/main/java/edu/mit/ll/provsdn/ProvManager.java:145-166 | a missing cookie throws, an unknown one writes nothing, a known one registers the packet and writes wasDerivedFrom from the packet's record to the filed flow rule |
| ProvRecorder.ProvManager.RecordListen | picosdn-collection/onos-app-provsdn/src/main/java/edu/mit/ll/provsdn/ProvManager.java:183-240 | skipped without activity, listener or uuid, for statistics listeners and resource events (isStatsRelated :398-403, isResourceRelated :381-389); otherwise recorded |
| ProvRecorder.ProvManager.ListenRecorded | picosdn-collection/onos-app-provsdn/src/main/java/edu/mit/ll/provsdn/ProvManager.java:212-238 | a fresh activity record is written and made the listener's running one, then used(activity, subject) when there is a subject, naming the subject's registered record |
| ProvRecorder.ProvManager.ListenUse | picosdn-collection/onos-app-provsdn/src/main/java/edu/mit/ll/provsdn/ProvManager.java:218-236 | the subject is registered after the activity record, and used names the new activity and the subject's record |
| Hook.ProvHook.constructor | picosdn-collection/core/api/src/main/java/org/onosproject/security/ProvHook.java:21-28 | no service at first |
| Hook.ProvHook.Start | picosdn-collection/core/api/src/main/java/org/onosproject/security/ProvHook.java:30-36 | the service is the one looked up, or none |
| Hook.ProvHook.Stop | picosdn-collection/core/api/src/main/java/org/onosproject/security/ProvHook.java:39-41 | no service afterwards |
| Hook.ProvHook.RecordDispatch | picosdn-collection/core/api/src/main/java/org/onosproject/security/ProvHook.java:44-50 | forwarded when a service runs; fails exactly when the service throws; with no service nothing at all changes |
| Hook.ProvHook.RecordListen | picosdn-collection/core/api/src/main/java/org/onosproject/security/ProvHook.java:53-59 | forwarded when a service runs; with no service nothing at all changes |
| Hook.ProvHook.RecordApiCallPlain | picosdn-collection/core/api/src/main/java/org/onosproject/security/ProvHook.java:62-69 | one call with no entity, forwarded when a service runs |
| Hook.ProvHook.RecordApiCall | picosdn-collection/core/api/src/main/java/org/onosproject/security/ProvHook.java:72-79 | one call with the entity, forwarded when a service runs; with no service nothing at all changes |
| Hook.ProvHook.RecordApiCallEach | picosdn-collection/core/api/src/main/java/org/onosproject/security/ProvHook.java:81-91 | one call per entity, in order, sharing one location; with no service nothing at all changes |
| Hook.ProvHook.RecordApiCallUpdate | picosdn-collection/core/api/src/main/java/org/onosproject/security/ProvHook.java:94-101 | one call with both entities, forwarded when a service runs; with no service nothing at all changes |
| Hook.ProvHook.RecordDerivation | picosdn-collection/core/api/src/main/java/org/onosproject/security/ProvHook.java:104-110 | one derivation, forwarded when a service runs; with no service nothing at all changes |
| Hook.ProvHook.RecordDerivationEach | picosdn-collection/core/api/src/main/java/org/onosproject/security/ProvHook.java:113-121 | one derivation per child, in order; with no service nothing at all changes |
| Hook.ApiCallsFor | picosdn-collection/core/api/src/main/java/org/onosproject/security/ProvHook.java:87-89 | one call per entity, position by position |
| Hook.DerivationsFor | picosdn-collection/core/api/src/main/java/org/onosproject/security/ProvHook.java:117-119 | one derivation per child, position by position |
| Packets.ProcessorEntry.constructor | picosdn-collection/core/net/src/main/java/org/onosproject/net/packet/impl/PacketManager.java:533-537 | the processor and priority are kept and both counters start at 0 |
| Packets.ProcessorEntry.AddNanos | picosdn-collection/core/net/src/main/java/org/onosproject/net/packet/impl/PacketManager.java:563-566 | both counters advance with 64-bit wrap-around |
| Packets.ProcessorEntry.AverageNanos | picosdn-collection/core/net/src/main/java/org/onosproject/net/packet/impl/PacketManager.java:559-561 | total over invocations truncated toward zero, or 0 before the first invocation |
| JavaNumbers.JavaDiv | picosdn-collection/core/net/src/main/java/org/onosproject/net/packet/impl/PacketManager.java:560 | Java's `/` truncates toward zero, for either sign of the dividend |
| Packets.InsertionIndex | picosdn-collection/core/net/src/main/java/org/onosproject/net/packet/impl/PacketManager.java:173-180 | the position before the first entry of strictly greater priority |
| Packets.InsertionIndexUnique | picosdn-collection/core/net/src/main/java/org/onosproject/net/packet/impl/PacketManager.java:173-180 | only one position has that property |
| Packets.InsertedSorted | picosdn-collection/core/net/src/main/java/org/onosproject/net/packet/impl/PacketManager.java:170-183 | insertion keeps the list sorted and puts the entry after every entry of equal priority |
| Packets.InsertedAt | picosdn-collection/core/net/src/main/java/org/onosproject/net/packet/impl/PacketManager.java:170-183 | the inserted list, position by position (the entries before the insertion point, the new entry, the rest shifted by one), and its multiset of entries |
| Packets.FirstIndexOf | picosdn-collection/core/net/src/main/java/org/onosproject/net/packet/impl/PacketManager.java:188-195 | the first entry of the processor, or the length |
| Packets.FirstIndexOfUnique | picosdn-collection/core/net/src/main/java/org/onosproject/net/packet/impl/PacketManager.java:188-195 | only one position has that property |
| Packets.RemovedAt | picosdn-collection/core/net/src/main/java/org/onosproject/net/packet/impl/PacketManager.java:186-197 | the list after removal, position by position |
| Packets.RemovedSorted | picosdn-collection/core/net/src/main/java/org/onosproject/net/packet/impl/PacketManager.java:186-197 | removal keeps the list sorted |
| Packets.RemovedDistinct | picosdn-collection/core/net/src/main/java/org/onosproject/net/packet/impl/PacketManager.java:186-197 | removal keeps the entries distinct |
| Packets.RemovedOne | picosdn-collection/core/net/src/main/java/org/onosproject/net/packet/impl/PacketManager.java:186-197 | exactly the first entry of the processor goes, and nothing when none is listed |
| Packets.AddThenRemove | picosdn-collection/core/net/src/main/java/org/onosproject/net/packet/impl/PacketManager.java:170-197 | adding an unlisted processor and then removing it restores the list |
| Packets.PacketManager.constructor | picosdn-collection/core/net/src/main/java/org/onosproject/net/packet/impl/PacketManager.java:130-155 | an empty processor list |
| Packets.PacketManager.AddProcessor | picosdn-collection/core/net/src/main/java/org/onosproject/net/packet/impl/PacketManager.java:170-183 | a fresh entry is inserted at the insertion index; the list stays sorted and distinct |
| Packets.PacketManager.RemoveProcessor | picosdn-collection/core/net/src/main/java/org/onosproject/net/packet/impl/PacketManager.java:186-197 | the first entry of the processor goes; the list stays sorted and distinct |
| Packets.PacketManager.GetProcessors | picosdn-collection/core/net/src/main/java/org/onosproject/net/packet/impl/PacketManager.java:200-203 | the list, unchanged |
| Packets.PacketManager.ProcessPacket | picosdn-collection/core/net/src/main/java/org/onosproject/net/packet/impl/PacketManager.java:415-440 | one dispatch record, then one listen record per entry in order; each entry's counters advance unless its processor threw; a failed dispatch stops everything; with no service only the timings change |
| Packets.PacketManager.RunProcessors | picosdn-collection/core/net/src/main/java/org/onosproject/net/packet/impl/PacketManager.java:422-438 | the loop over the entries, with the same per-entry effects |
| Packets.PacketManager.RunEntry | picosdn-collection/core/net/src/main/java/org/onosproject/net/packet/impl/PacketManager.java:423-437 | one listen record, then the timing unless the processor threw |
| Packets.ListensFor | picosdn-collection/core/net/src/main/java/org/onosproject/net/packet/impl/PacketManager.java:423-425 | one listen record per entry, position by position |
| Packets.PacketManager.PushRulesToDevice | picosdn-collection/core/net/src/main/java/org/onosproject/net/packet/impl/PacketManager.java:276-286 | the objectives sent are those of the requests aimed at the device or at no device, in order |
| Packets.PushedToSpec | picosdn-collection/core/net/src/main/java/org/onosproject/net/packet/impl/PacketManager.java:276-286 | an objective is sent exactly for the targeted requests, only to a switch, and at most one per request |
| Packets.PacketManager.PushRule | picosdn-collection/core/net/src/main/java/org/onosproject/net/packet/impl/PacketManager.java:320-338 | nothing for a device that is not a switch; otherwise the request's objective (createBuilder :366-376) |
| FlowRules.ComputeFlowIdLayout | picosdn-collection/core/api/src/main/java/org/onosproject/net/flow/DefaultFlowRule.java:517-520 | the id carries the app id in bits 48-63, zeros in 32-47 and the hash in 0-31 |
| FlowRules.DeprecatedFlowIdLayout | picosdn-collection/core/api/src/main/java/org/onosproject/net/flow/DefaultFlowRule.java:172-173 | with a group id below 2^16, app id, group id and hash are each recoverable |
| FlowRules.DeprecatedFlowIdOverlap | picosdn-collection/core/api/src/main/java/org/onosproject/net/flow/DefaultFlowRule.java:248-249 | a larger group id spills into the app id bits |
| FlowRules.DefaultFlowRule.FromBuilder | picosdn-collection/core/api/src/main/java/org/onosproject/net/flow/DefaultFlowRule.java:82-103 | the fields are the builder's, the app id is read back from the id, group 0, no payload |
| FlowRules.DefaultFlowRule.Copy | picosdn-collection/core/api/src/main/java/org/onosproject/net/flow/DefaultFlowRule.java:65-80 | every field of the rule is copied except the uuid slot |
| FlowRules.DefaultFlowRule.Deprecated | picosdn-collection/core/api/src/main/java/org/onosproject/net/flow/DefaultFlowRule.java:220-250 | the fields as given, with the deprecated id layout |
| FlowRules.NewDeprecated | picosdn-collection/core/api/src/main/java/org/onosproject/net/flow/DefaultFlowRule.java:144-191 | a priority below the minimum or above the maximum throws; otherwise a fresh rule whose device, selector, treatment, priority, app id, group id, timeouts, permanence and payload are the arguments, with the deprecated id layout, the default table, no reason and no uuid |
| FlowRules.DefaultFlowRule.SetEntityUuid | picosdn-collection/core/api/src/main/java/org/onosproject/net/flow/DefaultFlowRule.java:551-554 | the uuid slot holds the value set |
| FlowRules.EqualsEquivalence | picosdn-collection/core/api/src/main/java/org/onosproject/net/flow/DefaultFlowRule.java:312-325 | equals is reflexive, symmetric and transitive |
| FlowRules.EqualsHashConsistent | picosdn-collection/core/api/src/main/java/org/onosproject/net/flow/DefaultFlowRule.java:295-331 | equal rules hash equal, and an exact match is an equal rule |
| FlowRules.EqualsIgnoresId | picosdn-collection/core/api/src/main/java/org/onosproject/net/flow/DefaultFlowRule.java:312-331 | rules differing only in id are equal but do not match exactly |
| FlowRules.BuildCheck | picosdn-collection/core/api/src/main/java/org/onosproject/net/flow/DefaultFlowRule.java:489-503 | no error exactly when every check of build passes |
| FlowRules.BuildCheckOrder | picosdn-collection/core/api/src/main/java/org/onosproject/net/flow/DefaultFlowRule.java:489-503 | each of the eight errors is reported only when every earlier check passed and its own check failed |
| FlowRules.BuiltAppId | picosdn-collection/core/api/src/main/java/org/onosproject/net/flow/DefaultFlowRule.java:505-515 | a rule built from an app id reads it back; one built from a cookie reads the cookie's top 16 bits |
| FlowRules.FlowRuleBuilder.constructor | picosdn-collection/core/api/src/main/java/org/onosproject/net/flow/DefaultFlowRule.java:396-411 | the builder's defaults |
| FlowRules.FlowRuleBuilder.WithCookie | picosdn-collection/core/api/src/main/java/org/onosproject/net/flow/DefaultFlowRule.java:413-417 | only the cookie changes |
| FlowRules.FlowRuleBuilder.FromApp | picosdn-collection/core/api/src/main/java/org/onosproject/net/flow/DefaultFlowRule.java:419-423 | only the app id changes |
| FlowRules.FlowRuleBuilder.WithPriority | picosdn-collection/core/api/src/main/java/org/onosproject/net/flow/DefaultFlowRule.java:425-429 | only the priority changes |
| FlowRules.FlowRuleBuilder.ForDevice | picosdn-collection/core/api/src/main/java/org/onosproject/net/flow/DefaultFlowRule.java:431-435 | only the device changes |
| FlowRules.FlowRuleBuilder.ForTable | picosdn-collection/core/api/src/main/java/org/onosproject/net/flow/DefaultFlowRule.java:437-447 | only the table changes |
| FlowRules.FlowRuleBuilder.WithSelector | picosdn-collection/core/api/src/main/java/org/onosproject/net/flow/DefaultFlowRule.java:449-453 | only the selector changes |
| FlowRules.FlowRuleBuilder.WithTreatment | picosdn-collection/core/api/src/main/java/org/onosproject/net/flow/DefaultFlowRule.java:455-459 | a null treatment throws and changes nothing; otherwise only the treatment changes |
| FlowRules.FlowRuleBuilder.MakePermanent | picosdn-collection/core/api/src/main/java/org/onosproject/net/flow/DefaultFlowRule.java:461-466 | timeout 0 and permanent, together |
| FlowRules.FlowRuleBuilder.MakeTemporary | picosdn-collection/core/api/src/main/java/org/onosproject/net/flow/DefaultFlowRule.java:468-473 | the timeout and not permanent, together |
| FlowRules.FlowRuleBuilder.WithHardTimeout | picosdn-collection/core/api/src/main/java/org/onosproject/net/flow/DefaultFlowRule.java:475-481 | timeout and hard timeout both become the given value, and the rule is not permanent |
| FlowRules.FlowRuleBuilder.WithReason | picosdn-collection/core/api/src/main/java/org/onosproject/net/flow/DefaultFlowRule.java:483-487 | only the removal reason changes |
| FlowRules.FlowRuleBuilder.Build | picosdn-collection/core/api/src/main/java/org/onosproject/net/flow/DefaultFlowRule.java:489-515 | the first failing check is the error; otherwise a fresh rule with the builder's fields and the built id |
| FabricTreatment.LastSpec | picosdn-collection/pipelines/fabric/src/main/java/org/onosproject/pipelines/fabric/FabricTreatmentInterpreter.java:93-104 | a scan that overwrites a local per match ends with nothing exactly when nothing matches, else with the last match |
| FabricTreatment.FilteringActionSpec | picosdn-collection/pipelines/fabric/src/main/java/org/onosproject/pipelines/fabric/FabricTreatmentInterpreter.java:81-126 | no-op for an empty list or one with NoAction; otherwise an error exactly when there is no VLAN_ID; push only with a VLAN_PUSH, set only without |
| FabricTreatment.MapFilteringTreatment | picosdn-collection/pipelines/fabric/src/main/java/org/onosproject/pipelines/fabric/FabricTreatmentInterpreter.java:81-126 | the scan's result is the filtering reference, with the last VLAN_ID's id |
| FabricTreatment.MapForwardingTreatment | picosdn-collection/pipelines/fabric/src/main/java/org/onosproject/pipelines/fabric/FabricTreatmentInterpreter.java:143-170 | the empty treatment gives NOP_ACL on the ACL table and NOP elsewhere; otherwise accepted exactly when the output is CONTROLLER with at most one instruction, punting when deferred instructions are cleared and cloning otherwise |
| FabricTreatment.ScanOfSpec | picosdn-collection/pipelines/fabric/src/main/java/org/onosproject/pipelines/fabric/FabricTreatmentInterpreter.java:203-252 | the scan has no output exactly when no instruction is an OUTPUT, else the last OUTPUT's port; likewise for VLAN_ID |
| FabricTreatment.NextActionCases | picosdn-collection/pipelines/fabric/src/main/java/org/onosproject/pipelines/fabric/FabricTreatmentInterpreter.java:254-365 | SET_VLAN on the VLAN-meta table whatever the output; otherwise no output or exactly one MAC rewrite is an error; no MAC rewrite gives NEXT_OUTPUT_SIMPLE on the port's low 16 bits, or SET_VLAN_OUTPUT with that port and the VLAN when one is set; the MPLS and L3 routing cases by table |
| FabricTreatment.MapNextTreatment | picosdn-collection/pipelines/fabric/src/main/java/org/onosproject/pipelines/fabric/FabricTreatmentInterpreter.java:192-365 | the scan keeps the last of each instruction kind and the action is the next-block reference of that scan |
| FabricTreatment.FirstPopVlan | picosdn-collection/pipelines/fabric/src/main/java/org/onosproject/pipelines/fabric/FabricTreatmentInterpreter.java:372-375 | the first VLAN_POP's index, or none exactly when there is none |
| FabricTreatment.MapEgressNextTreatment | picosdn-collection/pipelines/fabric/src/main/java/org/onosproject/pipelines/fabric/FabricTreatmentInterpreter.java:370-380 | POP_VLAN exactly when some instruction pops a VLAN, NOP otherwise |
| ConnectPoints.DeviceId | picosdn-collection/core/api/src/main/java/org/onosproject/net/ConnectPoint.java:65-71 | the device id exactly when the element is a device, else the state error |
| ConnectPoints.HostId | picosdn-collection/core/api/src/main/java/org/onosproject/net/ConnectPoint.java:81-87 | the host id exactly when the element is a host, else the state error |
| ConnectPoints.DeviceConnectPoint | picosdn-collection/core/api/src/main/java/org/onosproject/net/ConnectPoint.java:122-130 | accepted exactly when the string splits on `/` into two parts, which become device and port |
| ConnectPoints.FromString | picosdn-collection/core/api/src/main/java/org/onosproject/net/ConnectPoint.java:159-167 | accepted exactly when the string splits on `/` into two parts, which become device and port, the port read by its own text parser |
| ConnectPoints.HostConnectPoint | picosdn-collection/core/api/src/main/java/org/onosproject/net/ConnectPoint.java:139-150 | accepted exactly when the string splits into three parts; the host is everything before the last `/`, the port everything after |
| ConnectPoints.FromStringToString | picosdn-collection/core/api/src/main/java/org/onosproject/net/ConnectPoint.java:159-190 | printing a device point and parsing it back gives the point |
| ConnectPoints.HostConnectPointToString | picosdn-collection/core/api/src/main/java/org/onosproject/net/ConnectPoint.java:139-190 | printing a "mac/vlan" host point and parsing it back gives the point |
| ConnectPoints.DeviceConnectPointRejects | picosdn-collection/core/api/src/main/java/org/onosproject/net/ConnectPoint.java:122-130 | a string without `/`, or ending in its only `/`, is rejected |
| ConnectPoints.EqualsHashConsistent | picosdn-collection/core/api/src/main/java/org/onosproject/net/ConnectPoint.java:169-185 | equality is equality of element and port, and equal points hash equal |
| ConnectPoints.CompareTo | picosdn-collection/core/api/src/main/java/org/onosproject/net/ConnectPoint.java:192-200 | both points must be on devices; different devices order by the device text; a device tie gives -1, 0 or 1 |
| ConnectPoints.CompareToPorts | picosdn-collection/core/api/src/main/java/org/onosproject/net/ConnectPoint.java:192-200 | on a device tie the result is the sign of the port difference when it fits a long, 0 exactly for the same point |
| ConnectPoints.CompareToAntisymmetric | picosdn-collection/core/api/src/main/java/org/onosproject/net/ConnectPoint.java:192-200 | swapping the operands negates the result |
| ConnectPoints.CompareToOverflow | picosdn-collection/core/api/src/main/java/org/onosproject/net/ConnectPoint.java:196 | the long difference wraps: port Long.MAX_VALUE compares below port -1 |
| ConnectPoints.ConnectPointEntity.constructor | picosdn-collection/core/api/src/main/java/org/onosproject/net/ConnectPoint.java:42-45 | the point as given, no uuid |
| ConnectPoints.ConnectPointEntity.SetEntityUuid | picosdn-collection/core/api/src/main/java/org/onosproject/net/ConnectPoint.java:202-210 | the getter then answers the value set |
| Hosts.DefaultHost.Full | picosdn-collection/core/api/src/main/java/org/onosproject/net/DefaultHost.java:117-129 | every field as given; the sets are copies |
| Hosts.DefaultHost.WithLocations | picosdn-collection/core/api/src/main/java/org/onosproject/net/DefaultHost.java:96-101 | the inner VLAN is NONE and the TPID unknown |
| Hosts.DefaultHost.WithLocation | picosdn-collection/core/api/src/main/java/org/onosproject/net/DefaultHost.java:77-82 | a single-location set |
| Hosts.DefaultHost.Basic | picosdn-collection/core/api/src/main/java/org/onosproject/net/DefaultHost.java:59-63 | a single location, not configured, inner VLAN NONE and TPID unknown |
| Hosts.DefaultHost.IpAddresses | picosdn-collection/core/api/src/main/java/org/onosproject/net/DefaultHost.java:145-148 | the stored addresses |
| Hosts.DefaultHost.Location | picosdn-collection/core/api/src/main/java/org/onosproject/net/DefaultHost.java:150-155 | none exactly when there is no location, otherwise a location with the greatest time |
| Hosts.LatestExists | picosdn-collection/core/api/src/main/java/org/onosproject/net/DefaultHost.java:150-155 | a non-empty location set has a location with the greatest time |
| Hosts.DefaultHost.SetEntityUuid | picosdn-collection/core/api/src/main/java/org/onosproject/net/DefaultHost.java:216-224 | the getter then answers the value set |
| Hosts.EqualsEquivalence | picosdn-collection/core/api/src/main/java/org/onosproject/net/DefaultHost.java:187-204 | equals is reflexive, symmetric and transitive |
| Hosts.EqualsHashConsistent | picosdn-collection/core/api/src/main/java/org/onosproject/net/DefaultHost.java:182-204 | equal hosts hash equal |
| Hosts.HashIgnoresAddresses | picosdn-collection/core/api/src/main/java/org/onosproject/net/DefaultHost.java:182-204 | hosts that differ only in addresses hash equal but are not equal |

## Left out

- Graph rendering (`generateDot`, `pp`): it is file output and a call to an external `dot` process.
- `networkActivitySummarization`: it builds sets and discards them, so nothing is observable.
- The graph library's internals: the graph is maps of nodes and edges. A rejected `addEdge` stands for the library's caught exception. A start vertex that is not in the graph is the `GraphError` result, standing for the library's `IllegalArgumentException`.
- Vertex identity: `W3CProvGraphNode` defines no `equals`, so the library compares vertices by reference; the model files nodes in a map keyed by uuid (a well-formed graph has `nodes[k].uuid == k`), which is the identity `addNode` and `getNode` use through their uuid lookup, so two distinct node objects with the same uuid are not modelled.
- Edge removal during iteration: `stashNonDependencyEdges` and `removePacketFlowDependency` remove edges while iterating the live edge view. The model of each takes the intended snapshot first; the as-written loop of the first is under "## Findings".
- `W3CProvGraphNode`'s attribute map: a node keeps only uuid, kind, value and timestamp.
- Text forms: they are modelled as structured renderers of flat records, with parsers to read them back. Escaping of quotes and commas is not modelled; the round-trip lemmas require plain strings.
- `getTypeString`'s default branch: every relation type has a name, so that branch cannot be reached.
- Concurrency: `synchronized`, the synchronized maps, the timer and the executors are left out. Everything is single-threaded.
- Random uuids and the clock: `UUID.randomUUID` is a counter-based fresh-id supply. `System.currentTimeMillis` is one `now` parameter per call. `System.nanoTime` differences are the `elapsed` parameter of `ProcessPacket`.
- Logging: `slf4j` is left out. `writeOut` appends to an output sequence.
- Permission checks (`checkPermission`): not modelled.
- Exceptions: they are `ok = false` results or `Result` errors. The thrown object's message is not kept.
- Java stack traces: a stack trace is the sequence of its frames' class names.
- Null processors: `PacketManager`'s null checks on processors are excluded by non-null types.
- Null strings: the `checkNotNull` guards of the connect-point parsers are excluded by types.
- `PacketProcessor.process`: its effects are not modelled. Whether it throws is a per-entry flag.
- `pushRule`'s objective service and callbacks: the objectives sent are returned instead. Its hook calls are left out.
- Packet-request plumbing: `removeRule`, `pushToAllDevices`, `removeFromAllDevices`, `requestPackets` and `cancelPackets` are not modelled.
- Opaque hashes: the murmur3 hash of the flow-rule builder and `Objects.hash` are parameters or inputs with no interpretation.
- Java `short` and `int` fields (app id, group id, hash, VLAN id, port bits) are carried as their two's-complement bits.
- `FlowRule.MIN_PRIORITY` and `MAX_PRIORITY`: taken as 0 and 65535, because FlowRule.java is not part of this model.
- `DefaultFlowRule.toString` and the `tableId()` accessor are not modelled.
- Helpers defined elsewhere: `FabricUtils.getOutputPort` is a parameter. So are the port parsers `PortNumber.portNumber` and `PortNumber.fromString`, and the port's `toString`.
- Element ids: `DeviceId.deviceId` and `HostId.hostId` are taken to give the element whose text is the string.
- Treatments: only the instructions and the cleared-deferred flag are modelled. Table transitions, meters and metadata are not.
- `VlanId.NONE` and `EtherType.UNKNOWN`: taken as 0xFFFF and 0, because those classes are not part of this model.
- `DefaultHost.toString`: not modelled.
- `AbstractElement`'s annotation merging: annotations are one map.
- `Hosts.DefaultHost.Location`: the location chosen among equally recent ones is left open. It depends on the hash set's iteration order, so `location()` is a method with a nondeterministic choice rather than a function.
- The constructor's set copy: Dafny sets are values, so the host's sets cannot alias the caller's. Copying is implicit.
- HostManager, GroupManager, TopologyManager, RegionManager and PathManager: service wrappers around stores that are not part of this model.

## Findings

| source | as written | input that shows it | evidently intended | confidence | as-written member | corrected member |
|---|---|---|---|---|---|---|
| picosdn-analysis/src/main/java/edu/mit/ll/provsdnanalysis/W3CProvGraph.java:319-329 | `stashNonDependencyEdges` removes edges from the graph while iterating its live, fail-fast edge view | a graph whose revision edge is visited before another edge: the iteration's next step throws `ConcurrentModificationException` | stash every revision and invalidation edge over a snapshot of the edge set, so that unstashing restores the graph | not executed; depends on the graph library's fail-fast views | ProvGraphSpec.StashLiveThrows | ProvGraph.W3CProvGraph.StashNonDependencyEdges |

/**
 * The client-side state store (src/stores/roadmapStore.ts). Every action is a
 * pure `State -> State` function built from spread, `map` and `filter`; the
 * two converters move a node between its API record and its canvas form.
 */
module RoadmapStore {
  import opened Wrappers
  import opened Seqs
  import opened ApiTypes
  import LocalStorage

  /** A canvas node (React Flow's `Node`): id, optional type, position and data bag; its other fields are left out. */
  datatype FlowNode = FlowNode(id: Id, nodeType: Option<NodeType>, position: Position, data: Bag)

  /** A canvas edge (React Flow's `Edge`) from node `source` to node `target`. */
  datatype Edge = Edge(id: Id, source: Id, target: Id)

  /** `Partial<Node>` for `updateNode`. */
  datatype FlowNodePatch = FlowNodePatch(id: Option<Id>, nodeType: Field<NodeType>, position: Option<Position>, data: Option<Bag>)

  /** `RoadmapState`. */
  datatype State = State(
    currentRoadmap: Option<Roadmap>,
    roadmaps: seq<Roadmap>,
    nodes: seq<FlowNode>,
    edges: seq<Edge>,
    selectedNode: Option<FlowNode>,
    isLoading: bool,
    error: Option<string>)

  /** `initialState`. */
  const InitialState: State := State(None, [], [], [], None, false, None)

  /** `{ ...node, ...updates }`. */
  function MergeFlowNode(n: FlowNode, p: FlowNodePatch): (m: FlowNode)
    ensures m.id == (if p.id.Some? then p.id.value else n.id)
    ensures m.nodeType == (if p.nodeType.Put? then p.nodeType.given else n.nodeType)
    ensures m.position == (if p.position.Some? then p.position.value else n.position)
    ensures m.data == (if p.data.Some? then p.data.value else n.data)
  {
    FlowNode(p.id.GetOr(n.id), p.nodeType.Over(n.nodeType), p.position.GetOr(n.position), p.data.GetOr(n.data))
  }

  function FlowNodeIds(ns: seq<FlowNode>): (r: seq<Id>)
    ensures |r| == |ns| && forall k :: 0 <= k < |ns| ==> r[k] == ns[k].id
  {
    Map(ns, (x: FlowNode) => x.id)
  }

  /** The edge touches node `id`. */
  predicate Incident(e: Edge, id: Id) {
    e.source == id || e.target == id
  }

  // ---------------------------------------------------------------------------
  // Actions

  /** `setCurrentRoadmap`. */
  function SetCurrentRoadmap(st: State, roadmap: Option<Roadmap>): (r: State)
    ensures r.currentRoadmap == roadmap
    ensures r.(currentRoadmap := st.currentRoadmap) == st
  {
    st.(currentRoadmap := roadmap)
  }

  /** `setRoadmaps`; `None` stands for a value that is not an array, which the action replaces by `[]`. */
  function SetRoadmaps(st: State, roadmaps: Option<seq<Roadmap>>): (r: State)
    ensures r.roadmaps == (if roadmaps.Some? then roadmaps.value else [])
    ensures r.(roadmaps := st.roadmaps) == st
  {
    st.(roadmaps := roadmaps.GetOr([]))
  }

  /** `addRoadmap`: exactly one roadmap more, at the end. */
  function AddRoadmap(st: State, roadmap: Roadmap): (r: State)
    ensures |r.roadmaps| == |st.roadmaps| + 1
    ensures r.roadmaps[..|st.roadmaps|] == st.roadmaps && r.roadmaps[|st.roadmaps|] == roadmap
    ensures r.(roadmaps := st.roadmaps) == st
  {
    st.(roadmaps := st.roadmaps + [roadmap])
  }

  /** `updateRoadmap`: merges into every roadmap with that id, and into the current one if it has that id. */
  function UpdateRoadmap(st: State, id: Id, updates: RoadmapPatch): (r: State)
    ensures |r.roadmaps| == |st.roadmaps|
    ensures forall k :: 0 <= k < |st.roadmaps| && st.roadmaps[k].id == id ==>
              r.roadmaps[k] == MergeRoadmap(st.roadmaps[k], updates)
    ensures forall k :: 0 <= k < |st.roadmaps| && st.roadmaps[k].id != id ==> r.roadmaps[k] == st.roadmaps[k]
    ensures r.currentRoadmap ==
              if st.currentRoadmap.Some? && st.currentRoadmap.value.id == id
              then Some(MergeRoadmap(st.currentRoadmap.value, updates))
              else st.currentRoadmap
    ensures r.(roadmaps := st.roadmaps, currentRoadmap := st.currentRoadmap) == st
  {
    st.(
      roadmaps := Map(st.roadmaps, (x: Roadmap) => if x.id == id then MergeRoadmap(x, updates) else x),
      currentRoadmap :=
        if st.currentRoadmap.Some? && st.currentRoadmap.value.id == id
        then Some(MergeRoadmap(st.currentRoadmap.value, updates))
        else st.currentRoadmap)
  }

  /** `deleteRoadmap`: no roadmap with that id is left, and the current one is dropped if it had it. */
  function DeleteRoadmap(st: State, id: Id): (r: State)
    ensures forall k :: 0 <= k < |r.roadmaps| ==> r.roadmaps[k].id != id && r.roadmaps[k] in st.roadmaps
    ensures forall k :: 0 <= k < |st.roadmaps| && st.roadmaps[k].id != id ==> st.roadmaps[k] in r.roadmaps
    ensures r.currentRoadmap ==
              if st.currentRoadmap.Some? && st.currentRoadmap.value.id == id then None else st.currentRoadmap
    ensures r.(roadmaps := st.roadmaps, currentRoadmap := st.currentRoadmap) == st
  {
    st.(
      roadmaps := Filter(st.roadmaps, (x: Roadmap) => x.id != id),
      currentRoadmap := if st.currentRoadmap.Some? && st.currentRoadmap.value.id == id then None else st.currentRoadmap)
  }

  /** `setNodes`; `None` stands for a value that is not an array. */
  function SetNodes(st: State, nodes: Option<seq<FlowNode>>): (r: State)
    ensures r.nodes == (if nodes.Some? then nodes.value else [])
    ensures r.(nodes := st.nodes) == st
  {
    st.(nodes := nodes.GetOr([]))
  }

  /** `addNode`: exactly one node more, at the end. */
  function AddNode(st: State, node: FlowNode): (r: State)
    ensures |r.nodes| == |st.nodes| + 1
    ensures r.nodes[..|st.nodes|] == st.nodes && r.nodes[|st.nodes|] == node
    ensures r.(nodes := st.nodes) == st
  {
    st.(nodes := st.nodes + [node])
  }

  /** `updateNode`: merges into every node with that id, and into the selected one if it has that id. */
  function UpdateNode(st: State, id: Id, updates: FlowNodePatch): (r: State)
    ensures |r.nodes| == |st.nodes|
    ensures forall k :: 0 <= k < |st.nodes| && st.nodes[k].id == id ==> r.nodes[k] == MergeFlowNode(st.nodes[k], updates)
    ensures forall k :: 0 <= k < |st.nodes| && st.nodes[k].id != id ==> r.nodes[k] == st.nodes[k]
    ensures r.selectedNode ==
              if st.selectedNode.Some? && st.selectedNode.value.id == id
              then Some(MergeFlowNode(st.selectedNode.value, updates))
              else st.selectedNode
    ensures r.(nodes := st.nodes, selectedNode := st.selectedNode) == st
  {
    st.(
      nodes := Map(st.nodes, (x: FlowNode) => if x.id == id then MergeFlowNode(x, updates) else x),
      selectedNode :=
        if st.selectedNode.Some? && st.selectedNode.value.id == id
        then Some(MergeFlowNode(st.selectedNode.value, updates))
        else st.selectedNode)
  }

  /**
   * `deleteNode`: no node with that id and no edge touching it is left; all
   * other nodes and edges stay; the selection is cleared only if it was that node.
   */
  function DeleteNode(st: State, id: Id): (r: State)
    ensures forall k :: 0 <= k < |r.nodes| ==> r.nodes[k].id != id && r.nodes[k] in st.nodes
    ensures forall k :: 0 <= k < |st.nodes| && st.nodes[k].id != id ==> st.nodes[k] in r.nodes
    ensures forall k :: 0 <= k < |r.edges| ==> !Incident(r.edges[k], id) && r.edges[k] in st.edges
    ensures forall k :: 0 <= k < |st.edges| && !Incident(st.edges[k], id) ==> st.edges[k] in r.edges
    ensures r.selectedNode ==
              if st.selectedNode.Some? && st.selectedNode.value.id == id then None else st.selectedNode
    ensures r.(nodes := st.nodes, edges := st.edges, selectedNode := st.selectedNode) == st
  {
    st.(
      nodes := Filter(st.nodes, (x: FlowNode) => x.id != id),
      edges := Filter(st.edges, (e: Edge) => !Incident(e, id)),
      selectedNode := if st.selectedNode.Some? && st.selectedNode.value.id == id then None else st.selectedNode)
  }

  /** `setEdges`; `None` stands for a value that is not an array. */
  function SetEdges(st: State, edges: Option<seq<Edge>>): (r: State)
    ensures r.edges == (if edges.Some? then edges.value else [])
    ensures r.(edges := st.edges) == st
  {
    st.(edges := edges.GetOr([]))
  }

  /** `addEdge`: exactly one edge more, at the end. */
  function AddEdge(st: State, edge: Edge): (r: State)
    ensures |r.edges| == |st.edges| + 1
    ensures r.edges[..|st.edges|] == st.edges && r.edges[|st.edges|] == edge
    ensures r.(edges := st.edges) == st
  {
    st.(edges := st.edges + [edge])
  }

  /** `deleteEdge`: removes only the edges with that id; nodes and selection stay. */
  function DeleteEdge(st: State, id: Id): (r: State)
    ensures forall k :: 0 <= k < |r.edges| ==> r.edges[k].id != id && r.edges[k] in st.edges
    ensures forall k :: 0 <= k < |st.edges| && st.edges[k].id != id ==> st.edges[k] in r.edges
    ensures r.(edges := st.edges) == st
  {
    st.(edges := Filter(st.edges, (e: Edge) => e.id != id))
  }

  /** `setSelectedNode`. */
  function SetSelectedNode(st: State, node: Option<FlowNode>): (r: State)
    ensures r.selectedNode == node
    ensures r.(selectedNode := st.selectedNode) == st
  {
    st.(selectedNode := node)
  }

  /** `setLoading`. */
  function SetLoading(st: State, loading: bool): (r: State)
    ensures r.isLoading == loading
    ensures r.(isLoading := st.isLoading) == st
  {
    st.(isLoading := loading)
  }

  /** `setError`. */
  function SetError(st: State, error: Option<string>): (r: State)
    ensures r.error == error
    ensures r.(error := st.error) == st
  {
    st.(error := error)
  }

  /** `reset`: back to the initial state, whatever the state was. */
  function Reset(st: State): (r: State)
    ensures r.roadmaps == [] && r.nodes == [] && r.edges == []
    ensures r.currentRoadmap.None? && r.selectedNode.None? && r.error.None?
    ensures !r.isLoading
  {
    InitialState
  }

  // ---------------------------------------------------------------------------
  // Properties across actions

  /** Every edge joins two nodes on the canvas. */
  ghost predicate EdgesAttached(st: State) {
    forall k :: 0 <= k < |st.edges| ==>
      st.edges[k].source in FlowNodeIds(st.nodes) && st.edges[k].target in FlowNodeIds(st.nodes)
  }

  /** Deleting a node leaves no dangling edge behind. */
  lemma DeleteNodeKeepsEdgesAttached(st: State, id: Id)
    requires EdgesAttached(st)
    ensures EdgesAttached(DeleteNode(st, id))
  {
    var r := DeleteNode(st, id);
    forall k | 0 <= k < |r.edges|
      ensures r.edges[k].source in FlowNodeIds(r.nodes) && r.edges[k].target in FlowNodeIds(r.nodes)
    {
      var e := r.edges[k];
      assert e in st.edges;
      var i :| 0 <= i < |st.nodes| && st.nodes[i].id == e.source;
      var j :| 0 <= j < |st.nodes| && st.nodes[j].id == e.target;
      MapFilterKeeps(st.nodes, (x: FlowNode) => x.id != id, (x: FlowNode) => x.id, i);
      MapFilterKeeps(st.nodes, (x: FlowNode) => x.id != id, (x: FlowNode) => x.id, j);
    }
  }

  /** Adding a node keeps every edge attached. */
  lemma AddNodeKeepsEdgesAttached(st: State, node: FlowNode)
    requires EdgesAttached(st)
    ensures EdgesAttached(AddNode(st, node))
  {
  }

  /** An edge between two nodes on the canvas keeps every edge attached. */
  lemma AddEdgeKeepsEdgesAttached(st: State, edge: Edge)
    requires EdgesAttached(st)
    requires edge.source in FlowNodeIds(st.nodes) && edge.target in FlowNodeIds(st.nodes)
    ensures EdgesAttached(AddEdge(st, edge))
  {
  }

  /** Deleting an edge keeps the others attached. */
  lemma DeleteEdgeKeepsEdgesAttached(st: State, id: Id)
    requires EdgesAttached(st)
    ensures EdgesAttached(DeleteEdge(st, id))
  {
  }

  /** Deleting a node just added gives what deleting it before the add gives. */
  lemma DeleteAddedNode(st: State, node: FlowNode)
    ensures DeleteNode(AddNode(st, node), node.id) == DeleteNode(st, node.id)
  {
    var added := AddNode(st, node);
    FilterAppend(st.nodes, [node], (x: FlowNode) => x.id != node.id);
    FilterKeepsNone([node], (x: FlowNode) => x.id != node.id);
    assert DeleteNode(added, node.id).nodes == DeleteNode(st, node.id).nodes;
    assert added.(nodes := st.nodes) == st;
  }

  /** Deleting a roadmap just added gives what deleting it before the add gives. */
  lemma DeleteAddedRoadmap(st: State, roadmap: Roadmap)
    ensures DeleteRoadmap(AddRoadmap(st, roadmap), roadmap.id) == DeleteRoadmap(st, roadmap.id)
  {
    FilterAppend(st.roadmaps, [roadmap], (x: Roadmap) => x.id != roadmap.id);
    FilterKeepsNone([roadmap], (x: Roadmap) => x.id != roadmap.id);
  }

  /** Deleting a roadmap twice is deleting it once. */
  lemma DeleteRoadmapIdempotent(st: State, id: Id)
    ensures DeleteRoadmap(DeleteRoadmap(st, id), id) == DeleteRoadmap(st, id)
  {
    var once := DeleteRoadmap(st, id);
    FilterKeepsAll(once.roadmaps, (x: Roadmap) => x.id != id);
  }

  /** Updating with the empty patch changes nothing. */
  lemma UpdateRoadmapNoChange(st: State, id: Id)
    ensures UpdateRoadmap(st, id, NoRoadmapChange) == st
  {
  }

  // ---------------------------------------------------------------------------
  // Converters between the API record and the canvas node

  /** An optional string as a bag value: absent is `undefined`. */
  function OptionalText(s: Option<string>): Value {
    if s.Some? then Text(s.value) else Undefined
  }

  /**
   * `nodeResponseToReactFlowNode`: id, type and position carry over; the data
   * bag gets `title` and `description`, which the node's own bag overrides
   * because it is spread afterwards.
   */
  function ToFlowNode(n: Node): (f: FlowNode)
    ensures f.id == n.id && f.nodeType == Some(n.nodeType) && f.position == n.position
    ensures "title" in f.data && "description" in f.data
    ensures f.data["title"] ==
              if n.data.Some? && "title" in n.data.value then n.data.value["title"] else Text(n.title)
    ensures f.data["description"] ==
              if n.data.Some? && "description" in n.data.value then n.data.value["description"]
              else OptionalText(n.description)
    ensures n.data.Some? ==> forall k :: k in n.data.value ==> k in f.data && f.data[k] == n.data.value[k]
    ensures forall k :: k in f.data ==> k == "title" || k == "description" || (n.data.Some? && k in n.data.value)
  {
    FlowNode(n.id, Some(n.nodeType), n.position,
             map["title" := Text(n.title), "description" := OptionalText(n.description)] + n.data.GetOr(map[]))
  }

  /** The `Partial<NodeResponse>` that `reactFlowNodeToNodeResponse` returns; every key is present. */
  datatype NodeFields = NodeFields(
    id: Id,
    roadmapId: Id,
    title: string,
    description: string,
    nodeType: NodeType,
    position: Position,
    data: Bag)

  /**
   * `(data as { key?: string })?.key || ''`, read as text: the bag's string
   * under the key, else `''` (a truthy non-string is read as `''` as well).
   */
  function TextOrEmpty(bag: Bag, key: string): (s: string)
    ensures key in bag && bag[key].Text? ==> s == bag[key].s
    ensures !(key in bag && bag[key].Text?) ==> s == ""
  {
    if key in bag && bag[key].Text? then bag[key].s else ""
  }

  /** `reactFlowNodeToNodeResponse`: a missing title or description becomes `''`, a missing type `'default'`. */
  function ToNodeFields(f: FlowNode, roadmapId: Id): (r: NodeFields)
    ensures r.id == f.id && r.roadmapId == roadmapId && r.position == f.position && r.data == f.data
    ensures r.nodeType == (if f.nodeType.Some? then f.nodeType.value else Default)
    ensures "title" in f.data && f.data["title"].Text? ==> r.title == f.data["title"].s
    ensures !("title" in f.data && f.data["title"].Text?) ==> r.title == ""
    ensures "description" in f.data && f.data["description"].Text? ==> r.description == f.data["description"].s
    ensures !("description" in f.data && f.data["description"].Text?) ==> r.description == ""
  {
    NodeFields(f.id, roadmapId, TextOrEmpty(f.data, "title"), TextOrEmpty(f.data, "description"),
               f.nodeType.GetOr(Default), f.position, f.data)
  }

  /**
   * Converting a node to the canvas and back keeps its identity, title, type
   * and position; a missing description comes back as `''`, and the data bag
   * comes back holding the `title` and `description` keys as well.
   */
  lemma CanvasRoundTrip(n: Node)
    requires n.data.None? || ("title" !in n.data.value && "description" !in n.data.value)
    ensures var r := ToNodeFields(ToFlowNode(n), n.roadmapId);
            && r.id == n.id && r.roadmapId == n.roadmapId
            && r.title == n.title && r.description == n.description.GetOr("")
            && r.nodeType == n.nodeType && r.position == n.position
            && r.data == ToFlowNode(n).data && "title" in r.data && "description" in r.data
  {
  }

  /**
   * The same for a node read back from storage: a `title` or `description`
   * that the bag held as `undefined` was dropped when the node was stored, so
   * the node's own title and description come back.
   */
  lemma StoredCanvasRoundTrip(n: Node)
    requires n.data.None? || (
               && ("title" !in n.data.value || n.data.value["title"].Undefined?)
               && ("description" !in n.data.value || n.data.value["description"].Undefined?))
    ensures var r := ToNodeFields(ToFlowNode(LocalStorage.Persisted(n)), n.roadmapId);
            && r.id == n.id && r.roadmapId == n.roadmapId
            && r.title == n.title && r.description == n.description.GetOr("")
            && r.nodeType == n.nodeType && r.position == n.position
  {
    CanvasRoundTrip(LocalStorage.Persisted(n));
  }

  /** A `title` in the node's own bag wins over the node's title on the way to the canvas and back. */
  lemma BagTitleWins(n: Node, t: string)
    requires n.data.Some? && "title" in n.data.value && n.data.value["title"] == Text(t)
    ensures ToNodeFields(ToFlowNode(n), n.roadmapId).title == t
  {
  }
}

/**
 * The in-browser substitute backend (src/services/mockApi.ts). Each call is a
 * method on the shared `Store`: it checks what the storage layer does not
 * (a node needs an existing roadmap, and is reached only through its own
 * roadmap), stamps access times, and turns thrown errors into `Err`.
 * The artificial `delay()` before every call is asynchrony only and is left out.
 */
module MockApi {
  import opened Wrappers
  import opened Seqs
  import opened Decimal
  import opened ApiTypes
  import opened LocalStorage

  /** `RoadmapRequest`; the thumbnail is already the object URL the browser made for the file. */
  datatype RoadmapRequest = RoadmapRequest(
    title: string,
    description: Option<string>,
    thumbnail: Option<string>,
    directoryId: Option<Id>)

  /** `Partial<RoadmapRequest>`: the API reads `data.key`, so an absent key reads as `undefined`. */
  datatype RoadmapRequestPatch = RoadmapRequestPatch(
    title: Option<string>,
    description: Option<string>,
    thumbnail: Option<string>,
    directoryId: Option<Id>)

  /** `NodeRequest`. */
  datatype NodeRequest = NodeRequest(
    title: string,
    description: Option<string>,
    nodeType: NodeType,
    position: Position,
    data: Option<Bag>)

  /** `Partial<NodeRequest>`, handed on to the storage layer's spread as it is. */
  datatype NodeRequestPatch = NodeRequestPatch(
    title: Option<string>,
    description: Field<string>,
    nodeType: Option<NodeType>,
    position: Option<Position>,
    data: Field<Bag>)

  /** `DirectoryRequest`. */
  datatype DirectoryRequest = DirectoryRequest(name: string, parentId: Option<Id>)

  /** `Partial<DirectoryRequest>`, handed on to the storage layer's spread as it is. */
  datatype DirectoryRequestPatch = DirectoryRequestPatch(name: Option<string>, parentId: Field<Id>)

  /**
   * The patch `mockRoadmapApi.update` builds: all four keys are always
   * present, so a key missing from the request clears the stored field.
   */
  function WriteThrough(req: RoadmapRequestPatch): (p: RoadmapPatch)
    ensures p.title == Put(req.title) && p.description == Put(req.description)
    ensures p.thumbnail == Put(req.thumbnail) && p.directoryId == Put(req.directoryId)
    ensures p.(title := Keep, description := Keep, thumbnail := Keep, directoryId := Keep) == NoRoadmapChange
  {
    NoRoadmapChange.(
      title := Put(req.title),
      description := Put(req.description),
      thumbnail := Put(req.thumbnail),
      directoryId := Put(req.directoryId))
  }

  /** A node update request as a storage patch: it cannot name another id, roadmap or timestamps. */
  function NodeRequestToPatch(req: NodeRequestPatch): NodePatch {
    NodePatch(None, None, req.title, req.description, req.nodeType, req.position, req.data, None, None)
  }

  /** A directory update request as a storage patch. */
  function DirectoryRequestToPatch(req: DirectoryRequestPatch): DirectoryPatch {
    DirectoryPatch(None, req.name, req.parentId, None, None)
  }

  /** The check that guards node reads and writes: the node exists and belongs to `roadmapId`. */
  predicate OwnedBy(ns: seq<Node>, nodeId: Id, roadmapId: Id): (b: bool)
    ensures nodeId !in NodeIds(ns) ==> !b
    ensures b ==> exists k :: 0 <= k < |ns| && ns[k].id == nodeId && ns[k].roadmapId == roadmapId
    ensures nodeId in NodeIds(ns) && (forall k :: 0 <= k < |ns| && ns[k].id == nodeId ==> ns[k].roadmapId == roadmapId) ==> b
  {
    FindNode(ns, nodeId).Some? && FindNode(ns, nodeId).value.roadmapId == roadmapId
  }

  // ---------------------------------------------------------------------------
  // mockRoadmapApi

  /** `mockRoadmapApi.create`. */
  method CreateRoadmap(s: Store, req: RoadmapRequest, now: Timestamp) returns (r: Roadmap)
    modifies s`roadmaps, s`lastId
    ensures s.lastId == old(s.lastId) + 1 && r.id == NatToDecimal(s.lastId)
    ensures r.title == Some(req.title) && r.description == req.description
    ensures r.thumbnail == req.thumbnail && r.directoryId == req.directoryId
    ensures !r.isFavorite && r.createdAt == now && r.updatedAt == now && r.lastAccessedAt.None?
    ensures s.roadmaps == old(s.roadmaps) + [r]
    ensures old(s.Valid()) ==> s.Valid() && r.id !in old(s.IdBag())
    ensures old(s.NodesOwned()) ==> s.NodesOwned()
  {
    r := s.CreateRoadmap(RoadmapDraft(req.title, req.description, req.thumbnail, req.directoryId, None), now);
  }

  /**
   * `mockRoadmapApi.update`: writes all four request keys over the stored
   * roadmap; the favorite flag, creation time and access time are kept.
   */
  method UpdateRoadmap(s: Store, id: Id, req: RoadmapRequestPatch, now: Timestamp)
    returns (res: Result<Roadmap, ApiError>)
    modifies s`roadmaps
    ensures RoadmapIndex(old(s.roadmaps), id).None? ==>
              res == Err(RoadmapNotFound(id)) && s.roadmaps == old(s.roadmaps)
    ensures RoadmapIndex(old(s.roadmaps), id).Some? ==>
              var i := RoadmapIndex(old(s.roadmaps), id).value;
              var was := old(s.roadmaps)[i];
              && res.Ok?
              && s.roadmaps == old(s.roadmaps)[i := res.value]
              && res.value == was.(title := req.title, description := req.description,
                                   thumbnail := req.thumbnail, directoryId := req.directoryId, updatedAt := now)
    ensures old(s.Valid()) ==> s.Valid()
    ensures old(s.NodesOwned()) ==> s.NodesOwned()
  {
    res := s.UpdateRoadmap(id, WriteThrough(req), now);
  }

  /** `mockRoadmapApi.delete`: never fails; the roadmap and all its nodes are gone. */
  method DeleteRoadmap(s: Store, id: Id)
    modifies s`roadmaps, s`nodes
    ensures s.roadmaps == WithoutRoadmap(old(s.roadmaps), id)
    ensures s.nodes == NodesNotOf(old(s.nodes), id)
    ensures id !in RoadmapIds(s.roadmaps) && NodesOf(s.nodes, id) == []
    ensures old(s.Valid()) ==> s.Valid()
    ensures old(s.NodesOwned()) ==> s.NodesOwned()
  {
    s.DeleteRoadmap(id);
    NoNodesLeft(s.nodes, id);
  }

  /** After the cascade no node of the roadmap is left for `getByRoadmap` to find. */
  lemma NoNodesLeft(ns: seq<Node>, id: Id)
    requires forall k :: 0 <= k < |ns| ==> ns[k].roadmapId != id
    ensures NodesOf(ns, id) == []
  {
    FilterKeepsNone(ns, (x: Node) => x.roadmapId == id);
  }

  /** `mockRoadmapApi.getAll`: the stored collection as it is. */
  method GetAllRoadmaps(s: Store) returns (rs: seq<Roadmap>)
    ensures rs == s.roadmaps
  {
    rs := s.roadmaps;
  }

  /** `mockRoadmapApi.toggleFavorite`. */
  method ToggleFavorite(s: Store, id: Id, now: Timestamp) returns (res: Result<Roadmap, ApiError>)
    modifies s`roadmaps
    ensures RoadmapIndex(old(s.roadmaps), id).None? ==>
              res == Err(RoadmapNotFound(id)) && s.roadmaps == old(s.roadmaps)
    ensures RoadmapIndex(old(s.roadmaps), id).Some? ==>
              var i := RoadmapIndex(old(s.roadmaps), id).value;
              && res.Ok?
              && res.value.isFavorite == !old(s.roadmaps)[i].isFavorite
              && res.value == Toggled(old(s.roadmaps)[i], now)
              && s.roadmaps == old(s.roadmaps)[i := res.value]
    ensures old(s.Valid()) ==> s.Valid()
    ensures old(s.NodesOwned()) ==> s.NodesOwned()
  {
    res := s.ToggleFavorite(id, now);
  }

  /** `mockRoadmapApi.getLastAccessed`: fails exactly when the storage query returns `null`. */
  method GetLastAccessed(s: Store) returns (res: Result<Roadmap, ApiError>)
    ensures res.Err? <==> forall i :: 0 <= i < |s.roadmaps| ==> s.roadmaps[i].lastAccessedAt.None?
    ensures res.Err? ==> res.error == NoRoadmapsFound
    ensures res.Ok? ==> res.value in s.roadmaps && res.value.lastAccessedAt.Some?
    ensures res.Ok? ==> forall i :: 0 <= i < |s.roadmaps| && s.roadmaps[i].lastAccessedAt.Some? ==>
                          AccessTime(s.roadmaps[i]) <= AccessTime(res.value)
    ensures res.Ok? ==> exists j :: 0 <= j < |s.roadmaps| && s.roadmaps[j] == res.value &&
                          forall i :: 0 <= i < j && s.roadmaps[i].lastAccessedAt.Some? ==>
                            AccessTime(s.roadmaps[i]) < AccessTime(res.value)
  {
    var r := LastAccessed(s.roadmaps);
    if r.None? {
      return Err(NoRoadmapsFound);
    }
    res := Ok(r.value);
  }

  /** `mockRoadmapApi.getCount`. */
  method GetCount(s: Store) returns (n: nat)
    ensures n == |s.roadmaps|
  {
    n := |s.roadmaps|;
  }

  // ---------------------------------------------------------------------------
  // mockNodeApi

  /**
   * `mockNodeApi.create`: refuses a roadmap that is not stored, changing
   * nothing; otherwise stamps the roadmap's access time and appends the node.
   */
  method CreateNode(s: Store, roadmapId: Id, req: NodeRequest, now: Timestamp) returns (res: Result<Node, ApiError>)
    modifies s`roadmaps, s`nodes, s`lastId
    ensures roadmapId !in RoadmapIds(old(s.roadmaps)) ==>
              && res == Err(CannotCreateNode(roadmapId))
              && s.roadmaps == old(s.roadmaps) && s.nodes == old(s.nodes) && s.lastId == old(s.lastId)
    ensures roadmapId in RoadmapIds(old(s.roadmaps)) ==>
              var i := RoadmapIndex(old(s.roadmaps), roadmapId).value;
              && res.Ok?
              && s.roadmaps == old(s.roadmaps)[i := Stamped(old(s.roadmaps)[i], now)]
              && s.lastId == old(s.lastId) + 1
              && res.value == NewNode(roadmapId, NodeDraft(req.title, req.description, req.nodeType, req.position, req.data),
                                      NatToDecimal(s.lastId), now)
              && s.nodes == old(s.nodes) + [Persisted(res.value)]
    ensures old(s.Valid()) ==> s.Valid()
    ensures old(s.NodesOwned()) ==> s.NodesOwned()
  {
    var index := RoadmapIndex(s.roadmaps, roadmapId);
    if index.None? {
      return Err(CannotCreateNode(roadmapId));
    }
    s.UpdateLastAccessed(roadmapId, now);
    ghost var stamped := s.roadmaps;
    assert stamped == old(s.roadmaps)[index.value := Stamped(old(s.roadmaps)[index.value], now)];
    ghost var ownedBefore := s.NodesOwned();
    var draft := NodeDraft(req.title, req.description, req.nodeType, req.position, req.data);
    var n := s.CreateNode(roadmapId, draft, now);
    assert s.roadmaps == stamped;
    assert n == NewNode(roadmapId, draft, NatToDecimal(s.lastId), now);
    if ownedBefore {
      AppendOwnedNode(s.roadmaps, old(s.nodes), Persisted(n));
    }
    res := Ok(n);
  }

  /** Appending a node whose roadmap is stored leaves no orphan. */
  lemma AppendOwnedNode(rs: seq<Roadmap>, ns: seq<Node>, n: Node)
    requires Owned(rs, ns) && n.roadmapId in RoadmapIds(rs)
    ensures Owned(rs, ns + [n])
  {
  }

  /** `mockNodeApi.get`: the node, when it exists and belongs to `roadmapId`. */
  method GetNode(s: Store, roadmapId: Id, nodeId: Id) returns (res: Result<Node, ApiError>)
    ensures res.Err? <==> !OwnedBy(s.nodes, nodeId, roadmapId)
    ensures res.Err? ==> res.error == NodeNotInRoadmap(nodeId, roadmapId)
    ensures res.Ok? ==> res.value == FindNode(s.nodes, nodeId).value
    ensures res.Ok? ==> res.value in s.nodes && res.value.id == nodeId && res.value.roadmapId == roadmapId
  {
    var node := FindNode(s.nodes, nodeId);
    if node.None? || node.value.roadmapId != roadmapId {
      return Err(NodeNotInRoadmap(nodeId, roadmapId));
    }
    res := Ok(node.value);
  }

  /** `mockNodeApi.update`: only through the node's own roadmap, which the update cannot change. */
  method UpdateNode(s: Store, roadmapId: Id, nodeId: Id, req: NodeRequestPatch, now: Timestamp)
    returns (res: Result<Node, ApiError>)
    modifies s`nodes
    ensures !OwnedBy(old(s.nodes), nodeId, roadmapId) ==>
              res == Err(NodeNotInRoadmap(nodeId, roadmapId)) && s.nodes == old(s.nodes)
    ensures OwnedBy(old(s.nodes), nodeId, roadmapId) ==>
              var i := NodeIndex(old(s.nodes), nodeId).value;
              && res == Ok(NodeUpdated(old(s.nodes)[i], nodeId, NodeRequestToPatch(req), now))
              && res.value.roadmapId == roadmapId
              && s.nodes == old(s.nodes)[i := Persisted(res.value)]
    ensures old(s.Valid()) ==> s.Valid()
    ensures old(s.NodesOwned()) ==> s.NodesOwned()
  {
    var existing := FindNode(s.nodes, nodeId);
    if existing.None? || existing.value.roadmapId != roadmapId {
      return Err(NodeNotInRoadmap(nodeId, roadmapId));
    }
    res := s.UpdateNode(nodeId, NodeRequestToPatch(req), now);
    NodeReplacedKeepsOwners(s.roadmaps, old(s.nodes), NodeIndex(old(s.nodes), nodeId).value, Persisted(res.value));
  }

  /** `mockNodeApi.delete`: only through the node's own roadmap. */
  method DeleteNode(s: Store, roadmapId: Id, nodeId: Id) returns (res: Result<(), ApiError>)
    modifies s`nodes
    ensures !OwnedBy(old(s.nodes), nodeId, roadmapId) ==>
              res == Err(NodeNotInRoadmap(nodeId, roadmapId)) && s.nodes == old(s.nodes)
    ensures OwnedBy(old(s.nodes), nodeId, roadmapId) ==>
              res == Ok(()) && s.nodes == WithoutNode(old(s.nodes), nodeId) && nodeId !in NodeIds(s.nodes)
    ensures old(s.Valid()) ==> s.Valid()
    ensures old(s.NodesOwned()) ==> s.NodesOwned()
  {
    var existing := FindNode(s.nodes, nodeId);
    if existing.None? || existing.value.roadmapId != roadmapId {
      return Err(NodeNotInRoadmap(nodeId, roadmapId));
    }
    s.DeleteNode(nodeId);
    res := Ok(());
  }

  /**
   * `mockNodeApi.getByRoadmap`: never fails, even for an unknown roadmap;
   * stamps the roadmap's access time when it exists.
   */
  method GetNodesByRoadmap(s: Store, roadmapId: Id, now: Timestamp) returns (ns: seq<Node>)
    modifies s`roadmaps
    ensures ns == NodesOf(s.nodes, roadmapId)
    ensures RoadmapIndex(old(s.roadmaps), roadmapId).None? ==> s.roadmaps == old(s.roadmaps)
    ensures RoadmapIndex(old(s.roadmaps), roadmapId).Some? ==>
              var i := RoadmapIndex(old(s.roadmaps), roadmapId).value;
              s.roadmaps == old(s.roadmaps)[i := Stamped(old(s.roadmaps)[i], now)]
    ensures old(s.Valid()) ==> s.Valid()
    ensures old(s.NodesOwned()) ==> s.NodesOwned()
  {
    s.UpdateLastAccessed(roadmapId, now);
    ns := NodesOf(s.nodes, roadmapId);
  }

  // ---------------------------------------------------------------------------
  // mockDirectoryApi

  /** `mockDirectoryApi.create`. */
  method CreateDirectory(s: Store, req: DirectoryRequest, now: Timestamp) returns (d: Directory)
    modifies s`directories, s`lastId
    ensures s.lastId == old(s.lastId) + 1
    ensures d == Directory(NatToDecimal(s.lastId), req.name, req.parentId, now, now)
    ensures s.directories == old(s.directories) + [d]
    ensures old(s.Valid()) ==> s.Valid() && d.id !in old(s.IdBag())
    ensures old(s.NodesOwned()) ==> s.NodesOwned()
  {
    d := s.CreateDirectory(DirectoryDraft(req.name, req.parentId), now);
  }

  /** `mockDirectoryApi.update`. */
  method UpdateDirectory(s: Store, id: Id, req: DirectoryRequestPatch, now: Timestamp)
    returns (res: Result<Directory, ApiError>)
    modifies s`directories
    ensures DirectoryIndex(old(s.directories), id).None? ==>
              res == Err(DirectoryNotFound(id)) && s.directories == old(s.directories)
    ensures DirectoryIndex(old(s.directories), id).Some? ==>
              var i := DirectoryIndex(old(s.directories), id).value;
              && res == Ok(DirectoryUpdated(old(s.directories)[i], id, DirectoryRequestToPatch(req), now))
              && s.directories == old(s.directories)[i := res.value]
    ensures old(s.Valid()) ==> s.Valid()
    ensures old(s.NodesOwned()) ==> s.NodesOwned()
  {
    res := s.UpdateDirectory(id, DirectoryRequestToPatch(req), now);
  }

  /**
   * `mockDirectoryApi.delete`: removes that directory only; roadmaps filed in
   * it and its child directories keep their now dangling references.
   */
  method DeleteDirectory(s: Store, id: Id)
    modifies s`directories
    ensures s.directories == WithoutDirectory(old(s.directories), id)
    ensures id !in DirectoryIds(s.directories)
    ensures forall k :: 0 <= k < |old(s.directories)| && old(s.directories)[k].id != id ==>
              old(s.directories)[k] in s.directories
    ensures old(s.Valid()) ==> s.Valid()
    ensures old(s.NodesOwned()) ==> s.NodesOwned()
  {
    s.DeleteDirectory(id);
  }

  /** `mockDirectoryApi.getRootContents`. */
  method GetRootContents(s: Store) returns (t: seq<DirectoryTree>)
    ensures t == RootContents(s.directories, s.roadmaps)
  {
    t := RootContents(s.directories, s.roadmaps);
  }

  // ---------------------------------------------------------------------------
  // Caller's view: what the contracts above let a client conclude

  /** Create a roadmap and a node under it, delete the roadmap: nothing of either is left. */
  method CascadeScenario(now: Timestamp)
  {
    var s := new Store();
    var a := CreateRoadmap(s, RoadmapRequest("X", None, None, None), now);
    var n := CreateNode(s, a.id, NodeRequest("Y", None, Task, Position(0.0, 0.0), None), now);
    assert n.Ok?;
    DeleteRoadmap(s, a.id);
    var left := GetNodesByRoadmap(s, a.id, now);
    assert left == [];
    assert FindRoadmap(s.roadmaps, a.id).None?;
    assert s.Valid() && s.NodesOwned();
  }

  /** A node under a missing roadmap is refused and nothing is stored. */
  method OrphanScenario(now: Timestamp)
  {
    var s := new Store();
    var a := CreateRoadmap(s, RoadmapRequest("X", None, None, None), now);
    assert a.id == "1";
    var n := CreateNode(s, "nonexistent", NodeRequest("Y", None, Task, Position(0.0, 0.0), None), now);
    assert n == Err(CannotCreateNode("nonexistent")) && |s.nodes| == 0;
  }

  /** A roadmap, a node and a directory draw "1", "2", "3" from one counter. */
  method SharedCounterScenario(now: Timestamp)
  {
    var s := new Store();
    var a := CreateRoadmap(s, RoadmapRequest("X", None, None, None), now);
    assert a.id == "1";
    var n := CreateNode(s, a.id, NodeRequest("Y", None, Default, Position(0.0, 0.0), None), now);
    assert n.Ok? && n.value.id == "2";
    var d := CreateDirectory(s, DirectoryRequest("Z", None), now);
    assert d.id == "3";
  }
}

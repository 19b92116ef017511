/**
 * The records the storage layer persists and the API returns (src/types/api.ts),
 * the `Partial<…>` patches spread over them, and the errors the calls throw.
 */
module ApiTypes {
  import opened Wrappers

  /** Identifiers are strings; the storage layer issues them from one decimal counter. */
  type Id = string

  /** A reading of the injected clock; the source's ISO-8601 strings order like these numbers. */
  type Timestamp = nat

  /** The node variants `'default' | 'milestone' | 'task'`. */
  datatype NodeType = Default | Milestone | Task

  /** A canvas position; floating-point coordinates are opaque to the model. */
  datatype Position = Position(x: real, y: real)

  /** A value in a node's open attribute bag (`Record<string, unknown>`), nested objects aside. */
  datatype Value = Undefined | Null | Bool(b: bool) | Number(n: real) | Text(s: string)

  type Bag = map<string, Value>

  /**
   * `RoadmapResponse`. The title is optional in the model because the API's
   * update writes `title: data.title` even when the request has no title.
   */
  datatype Roadmap = Roadmap(
    id: Id,
    title: Option<string>,
    description: Option<string>,
    thumbnail: Option<string>,
    directoryId: Option<Id>,
    createdAt: Timestamp,
    updatedAt: Timestamp,
    isFavorite: bool,
    lastAccessedAt: Option<Timestamp>)

  /** `NodeResponse`. */
  datatype Node = Node(
    id: Id,
    roadmapId: Id,
    title: string,
    description: Option<string>,
    nodeType: NodeType,
    position: Position,
    data: Option<Bag>,
    createdAt: Timestamp,
    updatedAt: Timestamp)

  /** A stored `DirectoryResponse`; its derived `children` and `roadmaps` are computed at read time. */
  datatype Directory = Directory(
    id: Id,
    name: string,
    parentId: Option<Id>,
    createdAt: Timestamp,
    updatedAt: Timestamp)

  /** A root directory as `getRootContents` returns it, with its derived fields filled in. */
  datatype DirectoryTree = DirectoryTree(directory: Directory, children: seq<Directory>, roadmaps: seq<Roadmap>)

  /** What `roadmapStorage.create` receives: a roadmap without id, timestamps and favorite flag. */
  datatype RoadmapDraft = RoadmapDraft(
    title: string,
    description: Option<string>,
    thumbnail: Option<string>,
    directoryId: Option<Id>,
    lastAccessedAt: Option<Timestamp>)

  /** What `nodeStorage.create` receives besides the roadmap id. */
  datatype NodeDraft = NodeDraft(
    title: string,
    description: Option<string>,
    nodeType: NodeType,
    position: Position,
    data: Option<Bag>)

  /** What `directoryStorage.create` receives. */
  datatype DirectoryDraft = DirectoryDraft(name: string, parentId: Option<Id>)

  /** `Partial<RoadmapResponse>`: `None`/`Keep` is an absent key. */
  datatype RoadmapPatch = RoadmapPatch(
    id: Option<Id>,
    title: Field<string>,
    description: Field<string>,
    thumbnail: Field<string>,
    directoryId: Field<Id>,
    createdAt: Option<Timestamp>,
    updatedAt: Option<Timestamp>,
    isFavorite: Option<bool>,
    lastAccessedAt: Field<Timestamp>)

  /** `Partial<NodeResponse>`. */
  datatype NodePatch = NodePatch(
    id: Option<Id>,
    roadmapId: Option<Id>,
    title: Option<string>,
    description: Field<string>,
    nodeType: Option<NodeType>,
    position: Option<Position>,
    data: Field<Bag>,
    createdAt: Option<Timestamp>,
    updatedAt: Option<Timestamp>)

  /** `Partial<DirectoryResponse>` without the derived fields. */
  datatype DirectoryPatch = DirectoryPatch(
    id: Option<Id>,
    name: Option<string>,
    parentId: Field<Id>,
    createdAt: Option<Timestamp>,
    updatedAt: Option<Timestamp>)

  /** The empty patch `{}`. */
  const NoRoadmapChange: RoadmapPatch := RoadmapPatch(None, Keep, Keep, Keep, Keep, None, None, None, Keep)

  /** `{ ...r, ...p }`: every key present in `p` overrides the record's field. */
  function MergeRoadmap(r: Roadmap, p: RoadmapPatch): (m: Roadmap)
    ensures m.id == (if p.id.Some? then p.id.value else r.id)
    ensures m.title == (if p.title.Put? then p.title.given else r.title)
    ensures m.description == (if p.description.Put? then p.description.given else r.description)
    ensures m.thumbnail == (if p.thumbnail.Put? then p.thumbnail.given else r.thumbnail)
    ensures m.directoryId == (if p.directoryId.Put? then p.directoryId.given else r.directoryId)
    ensures m.createdAt == (if p.createdAt.Some? then p.createdAt.value else r.createdAt)
    ensures m.updatedAt == (if p.updatedAt.Some? then p.updatedAt.value else r.updatedAt)
    ensures m.isFavorite == (if p.isFavorite.Some? then p.isFavorite.value else r.isFavorite)
    ensures m.lastAccessedAt == (if p.lastAccessedAt.Put? then p.lastAccessedAt.given else r.lastAccessedAt)
  {
    Roadmap(
      p.id.GetOr(r.id),
      p.title.Over(r.title),
      p.description.Over(r.description),
      p.thumbnail.Over(r.thumbnail),
      p.directoryId.Over(r.directoryId),
      p.createdAt.GetOr(r.createdAt),
      p.updatedAt.GetOr(r.updatedAt),
      p.isFavorite.GetOr(r.isFavorite),
      p.lastAccessedAt.Over(r.lastAccessedAt))
  }

  /** `{ ...n, ...p }`. */
  function MergeNode(n: Node, p: NodePatch): (m: Node)
    ensures m.id == (if p.id.Some? then p.id.value else n.id)
    ensures m.roadmapId == (if p.roadmapId.Some? then p.roadmapId.value else n.roadmapId)
    ensures m.title == (if p.title.Some? then p.title.value else n.title)
    ensures m.description == (if p.description.Put? then p.description.given else n.description)
    ensures m.nodeType == (if p.nodeType.Some? then p.nodeType.value else n.nodeType)
    ensures m.position == (if p.position.Some? then p.position.value else n.position)
    ensures m.data == (if p.data.Put? then p.data.given else n.data)
    ensures m.createdAt == (if p.createdAt.Some? then p.createdAt.value else n.createdAt)
    ensures m.updatedAt == (if p.updatedAt.Some? then p.updatedAt.value else n.updatedAt)
  {
    Node(
      p.id.GetOr(n.id),
      p.roadmapId.GetOr(n.roadmapId),
      p.title.GetOr(n.title),
      p.description.Over(n.description),
      p.nodeType.GetOr(n.nodeType),
      p.position.GetOr(n.position),
      p.data.Over(n.data),
      p.createdAt.GetOr(n.createdAt),
      p.updatedAt.GetOr(n.updatedAt))
  }

  /** `{ ...d, ...p }`. */
  function MergeDirectory(d: Directory, p: DirectoryPatch): (m: Directory)
    ensures m.id == (if p.id.Some? then p.id.value else d.id)
    ensures m.name == (if p.name.Some? then p.name.value else d.name)
    ensures m.parentId == (if p.parentId.Put? then p.parentId.given else d.parentId)
    ensures m.createdAt == (if p.createdAt.Some? then p.createdAt.value else d.createdAt)
    ensures m.updatedAt == (if p.updatedAt.Some? then p.updatedAt.value else d.updatedAt)
  {
    Directory(
      p.id.GetOr(d.id),
      p.name.GetOr(d.name),
      p.parentId.Over(d.parentId),
      p.createdAt.GetOr(d.createdAt),
      p.updatedAt.GetOr(d.updatedAt))
  }

  /** Spreading the empty patch leaves a roadmap as it was. */
  lemma MergeNoChange(r: Roadmap)
    ensures MergeRoadmap(r, NoRoadmapChange) == r
  {
  }

  /** The errors the storage layer and the API throw. */
  datatype ApiError =
    | RoadmapNotFound(id: Id)
    | NodeNotFound(id: Id)
    | DirectoryNotFound(id: Id)
    | CannotCreateNode(roadmapId: Id)
    | NodeNotInRoadmap(nodeId: Id, inRoadmap: Id)
    | NoRoadmapsFound
  {
    /** The message the thrown `Error` carries: a fixed text around the identifiers involved. */
    function Message(): (m: string)
      ensures this.RoadmapNotFound? ==> m == "Roadmap with id " + this.id + " not found"
      ensures this.NodeNotFound? ==> m == "Node with id " + this.id + " not found"
      ensures this.DirectoryNotFound? ==> m == "Directory with id " + this.id + " not found"
      ensures this.CannotCreateNode? ==> m == "Cannot create node: Roadmap with id " + this.roadmapId + " not found"
      ensures this.NodeNotInRoadmap? ==> m == "Node with id " + this.nodeId + " not found in roadmap " + this.inRoadmap
      ensures this.NoRoadmapsFound? ==> m == "No roadmaps found"
    {
      match this
      case RoadmapNotFound(id) => "Roadmap with id " + id + " not found"
      case NodeNotFound(id) => "Node with id " + id + " not found"
      case DirectoryNotFound(id) => "Directory with id " + id + " not found"
      case CannotCreateNode(rid) => "Cannot create node: Roadmap with id " + rid + " not found"
      case NodeNotInRoadmap(nid, rid) => "Node with id " + nid + " not found in roadmap " + rid
      case NoRoadmapsFound => "No roadmaps found"
    }
  }
}

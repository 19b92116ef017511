/**
 * The browser-local storage layer (src/services/localStorageService.ts).
 * Each of the four key-value slots becomes one field of `Store`; reading a
 * slot and parsing its JSON gives back what was last written, so a field is
 * read directly. Queries are the source's `filter`/`find` expressions as
 * functions; mutators are methods that rewrite the fields.
 */
module LocalStorage {
  import opened Wrappers
  import opened Seqs
  import opened Decimal
  import opened ApiTypes

  // ---------------------------------------------------------------------------
  // Identifiers of the stored records

  function RoadmapIds(rs: seq<Roadmap>): (r: seq<Id>)
    ensures |r| == |rs| && forall k :: 0 <= k < |rs| ==> r[k] == rs[k].id
  {
    Map(rs, (x: Roadmap) => x.id)
  }

  function NodeIds(ns: seq<Node>): (r: seq<Id>)
    ensures |r| == |ns| && forall k :: 0 <= k < |ns| ==> r[k] == ns[k].id
  {
    Map(ns, (x: Node) => x.id)
  }

  function DirectoryIds(ds: seq<Directory>): (r: seq<Id>)
    ensures |r| == |ds| && forall k :: 0 <= k < |ds| ==> r[k] == ds[k].id
  {
    Map(ds, (x: Directory) => x.id)
  }

  /** `id` was issued by the counter: the decimal numeral, without leading zeros, of one of 1..lastId. */
  predicate Issued(id: Id, lastId: nat) {
    IsDigits(id) && NoLeadingZero(id) && 1 <= ParseDecimal(id) <= lastId
  }

  /** An issued id is the counter's own rendering of one of 1..lastId. */
  lemma IssuedIsCounterText(id: Id, lastId: nat)
    requires Issued(id, lastId)
    ensures exists n: nat :: 1 <= n <= lastId && id == NatToDecimal(n)
  {
    CanonicalIsDecimal(id);
  }

  /** Two issued ids that stand for the same counter value are the same id. */
  lemma IssuedSameValue(a: Id, b: Id, lastId: nat)
    requires Issued(a, lastId) && Issued(b, lastId)
    ensures ParseDecimal(a) == ParseDecimal(b) ==> a == b
  {
    CanonicalIsDecimal(a);
    CanonicalIsDecimal(b);
  }

  /** Every identifier in `bag` was issued by the counter, and none occurs twice. */
  ghost predicate UniqueIssued(bag: multiset<Id>, lastId: nat) {
    forall x :: x in bag ==> Issued(x, lastId) && bag[x] == 1
  }

  /** Adding the next counter value to a bag of unique issued ids keeps them unique. */
  lemma {:induction false} FreshIdKeepsUnique(bag: multiset<Id>, lastId: nat, id: Id)
    requires UniqueIssued(bag, lastId)
    requires IsDigits(id) && NoLeadingZero(id) && ParseDecimal(id) == lastId + 1
    ensures id !in bag
    ensures UniqueIssued(bag + multiset{id}, lastId + 1)
  {
    assert !Issued(id, lastId);
    forall x | x in bag + multiset{id}
      ensures Issued(x, lastId + 1) && (bag + multiset{id})[x] == 1
    {
      if x != id {
        assert x in bag;
      }
    }
  }

  /** Removing records keeps the remaining ids unique. */
  lemma ShrinkKeepsUnique(bag: multiset<Id>, smaller: multiset<Id>, lastId: nat)
    requires UniqueIssued(bag, lastId) && smaller <= bag
    ensures UniqueIssued(smaller, lastId)
  {
    forall x | x in smaller
      ensures Issued(x, lastId) && smaller[x] == 1
    {
      assert x in bag;
    }
  }

  /** Every id held by the three collections, with multiplicities. */
  ghost function AllIds(rs: seq<Roadmap>, ns: seq<Node>, ds: seq<Directory>): multiset<Id> {
    multiset(RoadmapIds(rs)) + multiset(NodeIds(ns)) + multiset(DirectoryIds(ds))
  }

  /** Storing a roadmap with the next counter value keeps the ids unique. */
  lemma RoadmapAddedKeepsUnique(rs: seq<Roadmap>, ns: seq<Node>, ds: seq<Directory>, r: Roadmap, lastId: nat)
    requires IsDigits(r.id) && NoLeadingZero(r.id) && ParseDecimal(r.id) == lastId + 1
    ensures UniqueIssued(AllIds(rs, ns, ds), lastId) ==>
              r.id !in AllIds(rs, ns, ds) && UniqueIssued(AllIds(rs + [r], ns, ds), lastId + 1)
  {
    MapAppendBag(rs, r, (x: Roadmap) => x.id);
    assert AllIds(rs + [r], ns, ds) == AllIds(rs, ns, ds) + multiset{r.id};
    if UniqueIssued(AllIds(rs, ns, ds), lastId) {
      FreshIdKeepsUnique(AllIds(rs, ns, ds), lastId, r.id);
    }
  }

  /** Storing a node with the next counter value keeps the ids unique. */
  lemma NodeAddedKeepsUnique(rs: seq<Roadmap>, ns: seq<Node>, ds: seq<Directory>, n: Node, lastId: nat)
    requires IsDigits(n.id) && NoLeadingZero(n.id) && ParseDecimal(n.id) == lastId + 1
    ensures UniqueIssued(AllIds(rs, ns, ds), lastId) ==>
              n.id !in AllIds(rs, ns, ds) && UniqueIssued(AllIds(rs, ns + [n], ds), lastId + 1)
  {
    MapAppendBag(ns, n, (x: Node) => x.id);
    assert AllIds(rs, ns + [n], ds) == AllIds(rs, ns, ds) + multiset{n.id};
    if UniqueIssued(AllIds(rs, ns, ds), lastId) {
      FreshIdKeepsUnique(AllIds(rs, ns, ds), lastId, n.id);
    }
  }

  /** Storing a directory with the next counter value keeps the ids unique. */
  lemma DirectoryAddedKeepsUnique(rs: seq<Roadmap>, ns: seq<Node>, ds: seq<Directory>, d: Directory, lastId: nat)
    requires IsDigits(d.id) && NoLeadingZero(d.id) && ParseDecimal(d.id) == lastId + 1
    ensures UniqueIssued(AllIds(rs, ns, ds), lastId) ==>
              d.id !in AllIds(rs, ns, ds) && UniqueIssued(AllIds(rs, ns, ds + [d]), lastId + 1)
  {
    MapAppendBag(ds, d, (x: Directory) => x.id);
    assert AllIds(rs, ns, ds + [d]) == AllIds(rs, ns, ds) + multiset{d.id};
    if UniqueIssued(AllIds(rs, ns, ds), lastId) {
      FreshIdKeepsUnique(AllIds(rs, ns, ds), lastId, d.id);
    }
  }

  /** Rewriting a roadmap in place under its own id changes no id. */
  lemma RoadmapReplacedKeepsIds(rs: seq<Roadmap>, ns: seq<Node>, ds: seq<Directory>, i: nat, r: Roadmap)
    requires i < |rs| && r.id == rs[i].id
    ensures RoadmapIds(rs[i := r]) == RoadmapIds(rs)
    ensures AllIds(rs[i := r], ns, ds) == AllIds(rs, ns, ds)
    ensures Owned(rs, ns) ==> Owned(rs[i := r], ns)
  {
    MapUpdateSameImage(rs, i, r, (x: Roadmap) => x.id);
  }

  /** Rewriting a node in place under its own id changes no id. */
  lemma NodeReplacedKeepsIds(rs: seq<Roadmap>, ns: seq<Node>, ds: seq<Directory>, i: nat, n: Node)
    requires i < |ns| && n.id == ns[i].id
    ensures NodeIds(ns[i := n]) == NodeIds(ns)
    ensures AllIds(rs, ns[i := n], ds) == AllIds(rs, ns, ds)
  {
    MapUpdateSameImage(ns, i, n, (x: Node) => x.id);
  }

  /** Rewriting a directory in place under its own id changes no id. */
  lemma DirectoryReplacedKeepsIds(rs: seq<Roadmap>, ns: seq<Node>, ds: seq<Directory>, i: nat, d: Directory)
    requires i < |ds| && d.id == ds[i].id
    ensures DirectoryIds(ds[i := d]) == DirectoryIds(ds)
    ensures AllIds(rs, ns, ds[i := d]) == AllIds(rs, ns, ds)
  {
    MapUpdateSameImage(ds, i, d, (x: Directory) => x.id);
  }

  // ---------------------------------------------------------------------------
  // Queries: `find`, `findIndex` and `filter` over the stored collections

  /** `roadmaps.findIndex((r) => r.id === id)`. */
  function RoadmapIndex(rs: seq<Roadmap>, id: Id): (r: Option<nat>)
    ensures r.Some? ==> r.value < |rs| && rs[r.value].id == id
    ensures r.Some? ==> forall j :: 0 <= j < r.value ==> rs[j].id != id
    ensures r.None? <==> id !in RoadmapIds(rs)
  {
    FindIndex(rs, (x: Roadmap) => x.id == id)
  }

  /** `roadmapStorage.getById`: the first roadmap with that id, if any. */
  function FindRoadmap(rs: seq<Roadmap>, id: Id): (r: Option<Roadmap>)
    ensures r.None? <==> id !in RoadmapIds(rs)
    ensures r.Some? ==> r.value.id == id && r.value == rs[RoadmapIndex(rs, id).value]
  {
    match RoadmapIndex(rs, id)
    case None => None
    case Some(i) => Some(rs[i])
  }

  /** `nodes.findIndex((n) => n.id === id)`. */
  function NodeIndex(ns: seq<Node>, id: Id): (r: Option<nat>)
    ensures r.Some? ==> r.value < |ns| && ns[r.value].id == id
    ensures r.Some? ==> forall j :: 0 <= j < r.value ==> ns[j].id != id
    ensures r.None? <==> id !in NodeIds(ns)
  {
    FindIndex(ns, (x: Node) => x.id == id)
  }

  /** `nodeStorage.getById`: the first node with that id, if any. */
  function FindNode(ns: seq<Node>, id: Id): (r: Option<Node>)
    ensures r.None? <==> id !in NodeIds(ns)
    ensures r.Some? ==> r.value.id == id && r.value == ns[NodeIndex(ns, id).value]
  {
    match NodeIndex(ns, id)
    case None => None
    case Some(i) => Some(ns[i])
  }

  /** `directories.findIndex((d) => d.id === id)`. */
  function DirectoryIndex(ds: seq<Directory>, id: Id): (r: Option<nat>)
    ensures r.Some? ==> r.value < |ds| && ds[r.value].id == id
    ensures r.Some? ==> forall j :: 0 <= j < r.value ==> ds[j].id != id
    ensures r.None? <==> id !in DirectoryIds(ds)
  {
    FindIndex(ds, (x: Directory) => x.id == id)
  }

  /** `roadmaps.filter((r) => r.id !== id)`. */
  function WithoutRoadmap(rs: seq<Roadmap>, id: Id): (r: seq<Roadmap>)
    ensures forall k :: 0 <= k < |r| ==> r[k] in rs && r[k].id != id
    ensures forall k :: 0 <= k < |rs| && rs[k].id != id ==> rs[k] in r
  {
    Filter(rs, (x: Roadmap) => x.id != id)
  }

  /** `nodeStorage.getByRoadmap`: `nodes.filter((n) => n.roadmapId === roadmapId)`. */
  function NodesOf(ns: seq<Node>, roadmapId: Id): (r: seq<Node>)
    ensures forall k :: 0 <= k < |r| ==> r[k] in ns && r[k].roadmapId == roadmapId
    ensures forall k :: 0 <= k < |ns| && ns[k].roadmapId == roadmapId ==> ns[k] in r
  {
    Filter(ns, (x: Node) => x.roadmapId == roadmapId)
  }

  /** The cascade of a roadmap delete: `nodes.filter((n) => n.roadmapId !== id)`. */
  function NodesNotOf(ns: seq<Node>, roadmapId: Id): (r: seq<Node>)
    ensures forall k :: 0 <= k < |r| ==> r[k] in ns && r[k].roadmapId != roadmapId
    ensures forall k :: 0 <= k < |ns| && ns[k].roadmapId != roadmapId ==> ns[k] in r
  {
    Filter(ns, (x: Node) => x.roadmapId != roadmapId)
  }

  /** `nodes.filter((n) => n.id !== id)`. */
  function WithoutNode(ns: seq<Node>, id: Id): (r: seq<Node>)
    ensures forall k :: 0 <= k < |r| ==> r[k] in ns && r[k].id != id
    ensures forall k :: 0 <= k < |ns| && ns[k].id != id ==> ns[k] in r
  {
    Filter(ns, (x: Node) => x.id != id)
  }

  /** `directories.filter((d) => d.id !== id)`. */
  function WithoutDirectory(ds: seq<Directory>, id: Id): (r: seq<Directory>)
    ensures forall k :: 0 <= k < |r| ==> r[k] in ds && r[k].id != id
    ensures forall k :: 0 <= k < |ds| && ds[k].id != id ==> ds[k] in r
  {
    Filter(ds, (x: Directory) => x.id != id)
  }

  /** `!d.parentId`: no parent, or the falsy empty string as parent. */
  predicate IsRoot(d: Directory): (b: bool)
    ensures b <==> (d.parentId.None? || |d.parentId.value| == 0)
  {
    d.parentId.None? || d.parentId.value == ""
  }

  /** The direct children of directory `id` (one level only). */
  function ChildrenOf(ds: seq<Directory>, id: Id): (r: seq<Directory>)
    ensures forall k :: 0 <= k < |r| ==> r[k] in ds && r[k].parentId == Some(id)
    ensures forall k :: 0 <= k < |ds| && ds[k].parentId == Some(id) ==> ds[k] in r
  {
    Filter(ds, (x: Directory) => x.parentId == Some(id))
  }

  /** The roadmaps filed in directory `id`. */
  function RoadmapsIn(rs: seq<Roadmap>, id: Id): (r: seq<Roadmap>)
    ensures forall k :: 0 <= k < |r| ==> r[k] in rs && r[k].directoryId == Some(id)
    ensures forall k :: 0 <= k < |rs| && rs[k].directoryId == Some(id) ==> rs[k] in r
  {
    Filter(rs, (x: Roadmap) => x.directoryId == Some(id))
  }

  /** A root is listed among the children of no directory whose id is an issued one. */
  lemma RootIsNoChild(ds: seq<Directory>, d: Directory, id: Id, lastId: nat)
    requires IsRoot(d) && Issued(id, lastId)
    ensures d !in ChildrenOf(ds, id)
  {
  }

  /** One directory with its direct children and the roadmaps filed in it. */
  function Grouped(ds: seq<Directory>, rs: seq<Roadmap>, d: Directory): DirectoryTree {
    DirectoryTree(d, ChildrenOf(ds, d.id), RoadmapsIn(rs, d.id))
  }

  /** When every root is among `roots` and `t` lists one entry per element of `roots`, every root has an entry. */
  lemma EveryRootGrouped(ds: seq<Directory>, roots: seq<Directory>, t: seq<DirectoryTree>)
    requires forall k :: 0 <= k < |ds| && IsRoot(ds[k]) ==> ds[k] in roots
    requires |t| == |roots| && forall j :: 0 <= j < |roots| ==> t[j].directory == roots[j]
    ensures forall k :: 0 <= k < |ds| && IsRoot(ds[k]) ==> exists j :: 0 <= j < |t| && t[j].directory == ds[k]
  {
    forall k | 0 <= k < |ds| && IsRoot(ds[k])
      ensures exists j :: 0 <= j < |t| && t[j].directory == ds[k]
    {
      var j :| 0 <= j < |roots| && roots[j] == ds[k];
      assert t[j].directory == ds[k];
    }
  }

  /** `directoryStorage.getRootContents`: each root directory with its children and roadmaps. */
  function RootContents(ds: seq<Directory>, rs: seq<Roadmap>): (r: seq<DirectoryTree>)
    ensures |r| == |Filter(ds, IsRoot)|
    ensures forall k :: 0 <= k < |r| ==> r[k].directory == Filter(ds, IsRoot)[k]
    ensures forall k :: 0 <= k < |r| ==> r[k].directory in ds && IsRoot(r[k].directory)
    ensures forall k :: 0 <= k < |ds| && IsRoot(ds[k]) ==> exists j :: 0 <= j < |r| && r[j].directory == ds[k]
    ensures forall k :: 0 <= k < |r| ==>
              r[k].children == ChildrenOf(ds, r[k].directory.id) && r[k].roadmaps == RoadmapsIn(rs, r[k].directory.id)
  {
    var roots := Filter(ds, IsRoot);
    var t := Map(roots, (d: Directory) => Grouped(ds, rs, d));
    EveryRootGrouped(ds, roots, t);
    t
  }

  /** The timestamp of a roadmap that has been accessed. */
  function AccessTime(r: Roadmap): Timestamp
    requires r.lastAccessedAt.Some?
  {
    r.lastAccessedAt.value
  }

  /**
   * The index `getLastAccessed` picks: among roadmaps with `lastAccessedAt`,
   * one with the latest time; the sort is stable, so on a tie the first in
   * storage order.
   */
  function LatestIndex(rs: seq<Roadmap>): (r: Option<nat>)
    ensures r.None? <==> forall i :: 0 <= i < |rs| ==> rs[i].lastAccessedAt.None?
    ensures r.Some? ==> r.value < |rs| && rs[r.value].lastAccessedAt.Some?
    ensures r.Some? ==> forall i :: 0 <= i < |rs| && rs[i].lastAccessedAt.Some? ==>
                          AccessTime(rs[i]) <= AccessTime(rs[r.value])
    ensures r.Some? ==> forall i :: 0 <= i < r.value && rs[i].lastAccessedAt.Some? ==>
                          AccessTime(rs[i]) < AccessTime(rs[r.value])
  {
    if rs == [] then None
    else
      var n := |rs| - 1;
      var best := LatestIndex(rs[..n]);
      if rs[n].lastAccessedAt.None? then best
      else if best.None? || AccessTime(rs[best.value]) < AccessTime(rs[n]) then Some(n)
      else best
  }

  /** `roadmapStorage.getLastAccessed`, with `None` for `null`. */
  function LastAccessed(rs: seq<Roadmap>): (r: Option<Roadmap>)
    ensures r.None? <==> forall i :: 0 <= i < |rs| ==> rs[i].lastAccessedAt.None?
    ensures r.Some? ==> r.value in rs && r.value.lastAccessedAt.Some?
    ensures r.Some? ==> forall i :: 0 <= i < |rs| && rs[i].lastAccessedAt.Some? ==>
                          AccessTime(rs[i]) <= AccessTime(r.value)
    ensures r.Some? ==> exists j :: 0 <= j < |rs| && rs[j] == r.value &&
                          forall i :: 0 <= i < j && rs[i].lastAccessedAt.Some? ==> AccessTime(rs[i]) < AccessTime(r.value)
  {
    match LatestIndex(rs)
    case None => None
    case Some(i) => Some(rs[i])
  }

  /** Every node of `ns` belongs to a roadmap of `rs`. */
  ghost predicate Owned(rs: seq<Roadmap>, ns: seq<Node>) {
    forall k :: 0 <= k < |ns| ==> ns[k].roadmapId in RoadmapIds(rs)
  }

  /** Storing one more roadmap orphans no node. */
  lemma RoadmapAddedKeepsOwners(rs: seq<Roadmap>, ns: seq<Node>, r: Roadmap)
    ensures Owned(rs, ns) ==> Owned(rs + [r], ns)
  {
    MapAppend(rs, r, (x: Roadmap) => x.id);
  }

  /** Rewriting a node in place without moving it to another roadmap orphans no node. */
  lemma NodeReplacedKeepsOwners(rs: seq<Roadmap>, ns: seq<Node>, i: nat, n: Node)
    requires i < |ns| && n.roadmapId == ns[i].roadmapId
    ensures Owned(rs, ns) ==> Owned(rs, ns[i := n])
  {
  }

  /** The cascade leaves no orphan: the surviving nodes belong to surviving roadmaps. */
  lemma CascadeKeepsOwners(rs: seq<Roadmap>, ns: seq<Node>, id: Id)
    requires Owned(rs, ns)
    ensures Owned(WithoutRoadmap(rs, id), NodesNotOf(ns, id))
  {
    var kept := NodesNotOf(ns, id);
    forall k | 0 <= k < |kept|
      ensures kept[k].roadmapId in RoadmapIds(WithoutRoadmap(rs, id))
    {
      assert kept[k] in ns;
      var j :| 0 <= j < |rs| && rs[j].id == kept[k].roadmapId;
      MapFilterKeeps(rs, (x: Roadmap) => x.id != id, (x: Roadmap) => x.id, j);
    }
  }

  /** The roadmap delete with its cascade keeps the remaining ids unique. */
  lemma RoadmapDeletedKeepsUnique(rs: seq<Roadmap>, ns: seq<Node>, ds: seq<Directory>, id: Id, lastId: nat)
    ensures UniqueIssued(AllIds(rs, ns, ds), lastId) ==>
              UniqueIssued(AllIds(WithoutRoadmap(rs, id), NodesNotOf(ns, id), ds), lastId)
  {
    MapFilterSubBag(rs, (x: Roadmap) => x.id != id, (x: Roadmap) => x.id);
    MapFilterSubBag(ns, (x: Node) => x.roadmapId != id, (x: Node) => x.id);
    if UniqueIssued(AllIds(rs, ns, ds), lastId) {
      ShrinkKeepsUnique(AllIds(rs, ns, ds), AllIds(WithoutRoadmap(rs, id), NodesNotOf(ns, id), ds), lastId);
    }
  }

  /** A node delete keeps the remaining ids unique. */
  lemma NodeDeletedKeepsUnique(rs: seq<Roadmap>, ns: seq<Node>, ds: seq<Directory>, id: Id, lastId: nat)
    ensures UniqueIssued(AllIds(rs, ns, ds), lastId) ==>
              UniqueIssued(AllIds(rs, WithoutNode(ns, id), ds), lastId)
  {
    MapFilterSubBag(ns, (x: Node) => x.id != id, (x: Node) => x.id);
    if UniqueIssued(AllIds(rs, ns, ds), lastId) {
      ShrinkKeepsUnique(AllIds(rs, ns, ds), AllIds(rs, WithoutNode(ns, id), ds), lastId);
    }
  }

  /** A directory delete keeps the remaining ids unique. */
  lemma DirectoryDeletedKeepsUnique(rs: seq<Roadmap>, ns: seq<Node>, ds: seq<Directory>, id: Id, lastId: nat)
    ensures UniqueIssued(AllIds(rs, ns, ds), lastId) ==>
              UniqueIssued(AllIds(rs, ns, WithoutDirectory(ds, id)), lastId)
  {
    MapFilterSubBag(ds, (x: Directory) => x.id != id, (x: Directory) => x.id);
    if UniqueIssued(AllIds(rs, ns, ds), lastId) {
      ShrinkKeepsUnique(AllIds(rs, ns, ds), AllIds(rs, ns, WithoutDirectory(ds, id)), lastId);
    }
  }

  // ---------------------------------------------------------------------------
  // The records the mutators write

  /** `{ ...roadmap, id, createdAt, updatedAt, isFavorite: false }`. */
  function NewRoadmap(d: RoadmapDraft, id: Id, now: Timestamp): (r: Roadmap)
    ensures r.id == id && r.createdAt == now && r.updatedAt == now && !r.isFavorite
    ensures r.title == Some(d.title) && r.description == d.description && r.thumbnail == d.thumbnail
    ensures r.directoryId == d.directoryId && r.lastAccessedAt == d.lastAccessedAt
  {
    Roadmap(id, Some(d.title), d.description, d.thumbnail, d.directoryId, now, now, false, d.lastAccessedAt)
  }

  /** `{ ...node, id, roadmapId, createdAt, updatedAt }`. */
  function NewNode(roadmapId: Id, d: NodeDraft, id: Id, now: Timestamp): (n: Node)
    ensures n.id == id && n.roadmapId == roadmapId && n.createdAt == now && n.updatedAt == now
    ensures n.title == d.title && n.description == d.description && n.nodeType == d.nodeType
    ensures n.position == d.position && n.data == d.data
  {
    Node(id, roadmapId, d.title, d.description, d.nodeType, d.position, d.data, now, now)
  }

  /** `{ ...directory, id, createdAt, updatedAt, children: [], roadmaps: [] }`. */
  function NewDirectory(d: DirectoryDraft, id: Id, now: Timestamp): (r: Directory)
    ensures r.id == id && r.createdAt == now && r.updatedAt == now
    ensures r.name == d.name && r.parentId == d.parentId
  {
    Directory(id, d.name, d.parentId, now, now)
  }

  /**
   * `{ ...roadmaps[index], ...updates, id, updatedAt: now }`: the id is the
   * one looked up even when the patch carries another, `updatedAt` is now,
   * and every other field is the patch's where the patch has the key.
   */
  function RoadmapUpdated(r: Roadmap, id: Id, p: RoadmapPatch, now: Timestamp): (u: Roadmap)
    ensures u.id == id && u.updatedAt == now
    ensures u.title == (if p.title.Keep? then r.title else p.title.given)
    ensures u.description == (if p.description.Keep? then r.description else p.description.given)
    ensures u.thumbnail == (if p.thumbnail.Keep? then r.thumbnail else p.thumbnail.given)
    ensures u.directoryId == (if p.directoryId.Keep? then r.directoryId else p.directoryId.given)
    ensures u.createdAt == (if p.createdAt.None? then r.createdAt else p.createdAt.value)
    ensures u.isFavorite == (if p.isFavorite.None? then r.isFavorite else p.isFavorite.value)
    ensures u.lastAccessedAt == (if p.lastAccessedAt.Keep? then r.lastAccessedAt else p.lastAccessedAt.given)
  {
    MergeRoadmap(r, p).(id := id, updatedAt := now)
  }

  /** `{ ...nodes[index], ...updates, id, updatedAt: now }`. */
  function NodeUpdated(n: Node, id: Id, p: NodePatch, now: Timestamp): (u: Node)
    ensures u.id == id && u.updatedAt == now
    ensures u.roadmapId == (if p.roadmapId.None? then n.roadmapId else p.roadmapId.value)
    ensures u.title == (if p.title.None? then n.title else p.title.value)
    ensures u.description == (if p.description.Keep? then n.description else p.description.given)
    ensures u.nodeType == (if p.nodeType.None? then n.nodeType else p.nodeType.value)
    ensures u.position == (if p.position.None? then n.position else p.position.value)
    ensures u.data == (if p.data.Keep? then n.data else p.data.given)
    ensures u.createdAt == (if p.createdAt.None? then n.createdAt else p.createdAt.value)
  {
    MergeNode(n, p).(id := id, updatedAt := now)
  }

  /** `{ ...directories[index], ...updates, id, updatedAt: now }`. */
  function DirectoryUpdated(d: Directory, id: Id, p: DirectoryPatch, now: Timestamp): (u: Directory)
    ensures u.id == id && u.updatedAt == now
    ensures u.name == (if p.name.None? then d.name else p.name.value)
    ensures u.parentId == (if p.parentId.Keep? then d.parentId else p.parentId.given)
    ensures u.createdAt == (if p.createdAt.None? then d.createdAt else p.createdAt.value)
  {
    MergeDirectory(d, p).(id := id, updatedAt := now)
  }

  /**
   * What `JSON.stringify` keeps of a node's attribute bag: every entry whose
   * value is not `undefined`. Bag values are flat, so parsing gives these back.
   */
  function PersistedBag(b: Bag): (p: Bag)
    ensures forall k :: k in p <==> k in b && !b[k].Undefined?
    ensures forall k :: k in p ==> p[k] == b[k]
  {
    map k | k in b && !b[k].Undefined? :: b[k]
  }

  /**
   * A node as the slot gives it back after `JSON.stringify` and `JSON.parse`:
   * the same record, except that its bag has lost its `undefined` entries.
   */
  function Persisted(n: Node): (p: Node)
    ensures p.(data := n.data) == n
    ensures p.data.None? <==> n.data.None?
    ensures n.data.Some? ==> p.data.value == PersistedBag(n.data.value)
  {
    if n.data.None? then n else n.(data := Some(PersistedBag(n.data.value)))
  }

  /** Storing a node that was read back changes nothing more. */
  lemma PersistedIdempotent(n: Node)
    ensures Persisted(Persisted(n)) == Persisted(n)
  {
    if n.data.Some? {
      var once := PersistedBag(n.data.value);
      assert PersistedBag(once) == once;
    }
  }

  /** `{ isFavorite: b }`. */
  function FavoritePatch(b: bool): RoadmapPatch {
    NoRoadmapChange.(isFavorite := Some(b))
  }

  /** `{ lastAccessedAt: now }`. */
  function AccessPatch(now: Timestamp): RoadmapPatch {
    NoRoadmapChange.(lastAccessedAt := Put(Some(now)))
  }

  /** What `toggleFavorite` writes: only the flag (negated) and `updatedAt` change. */
  function Toggled(r: Roadmap, now: Timestamp): (t: Roadmap)
    ensures t.isFavorite == !r.isFavorite && t.updatedAt == now
    ensures t.(isFavorite := r.isFavorite, updatedAt := r.updatedAt) == r
  {
    RoadmapUpdated(r, r.id, FavoritePatch(!r.isFavorite), now)
  }

  /** Toggling twice restores the flag; only `updatedAt` records that it happened. */
  lemma ToggleTwiceRestores(r: Roadmap, t1: Timestamp, t2: Timestamp)
    ensures Toggled(Toggled(r, t1), t2).isFavorite == r.isFavorite
    ensures Toggled(Toggled(r, t1), t2) == r.(updatedAt := t2)
  {
  }

  /** What `updateLastAccessed` writes: only the access time and `updatedAt`, both now. */
  function Stamped(r: Roadmap, now: Timestamp): (s: Roadmap)
    ensures s == r.(lastAccessedAt := Some(now), updatedAt := now)
  {
    RoadmapUpdated(r, r.id, AccessPatch(now), now)
  }

  // ---------------------------------------------------------------------------
  // The store

  /** The four slots of the browser's key-value store. */
  class Store {
    /** `horizon-studio-roadmaps` */
    var roadmaps: seq<Roadmap>
    /** `horizon-studio-nodes` */
    var nodes: seq<Node>
    /** `horizon-studio-directories` */
    var directories: seq<Directory>
    /** `horizon-studio-last-id`: the counter all three collections draw ids from. */
    var lastId: nat

    /** Every stored id, across the three collections. */
    ghost function IdBag(): multiset<Id>
      reads this
    {
      AllIds(roadmaps, nodes, directories)
    }

    /** Ids are issued by the shared counter and unique across all three collections. */
    ghost predicate Valid()
      reads this
    {
      UniqueIssued(IdBag(), lastId)
    }

    /** Every node belongs to a stored roadmap (the API layer keeps this; the storage layer alone does not). */
    ghost predicate NodesOwned()
      reads this
    {
      Owned(roadmaps, nodes)
    }

    /** Empty slots: every `getAll` returns `[]` and the counter reads as `'0'`. */
    constructor ()
      ensures roadmaps == [] && nodes == [] && directories == [] && lastId == 0
      ensures Valid() && NodesOwned()
    {
      roadmaps, nodes, directories, lastId := [], [], [], 0;
    }

    /** `clearAllData`: removes all four keys. */
    method ClearAllData()
      modifies this
      ensures roadmaps == [] && nodes == [] && directories == [] && lastId == 0
      ensures Valid() && NodesOwned()
    {
      roadmaps, nodes, directories, lastId := [], [], [], 0;
    }

    /** `generateId`: read the counter, add one, write it back, return it in decimal. */
    method GenerateId() returns (id: Id)
      modifies this`lastId
      ensures lastId == old(lastId) + 1
      ensures id == NatToDecimal(lastId) && IsDigits(id) && ParseDecimal(id) == lastId
    {
      ParseNatToDecimal(lastId);
      var current := ParseDecimal(NatToDecimal(lastId));
      lastId := current + 1;
      id := NatToDecimal(lastId);
      ParseNatToDecimal(lastId);
    }

    /** `roadmapStorage.create`: one new record at the end, with a fresh id. */
    method CreateRoadmap(draft: RoadmapDraft, now: Timestamp) returns (r: Roadmap)
      modifies this`roadmaps, this`lastId
      ensures lastId == old(lastId) + 1 && r.id == NatToDecimal(lastId)
      ensures r == NewRoadmap(draft, r.id, now)
      ensures roadmaps == old(roadmaps) + [r]
      ensures old(Valid()) ==> Valid() && r.id !in old(IdBag())
      ensures old(NodesOwned()) ==> NodesOwned()
    {
      var id := GenerateId();
      r := NewRoadmap(draft, id, now);
      RoadmapAddedKeepsUnique(roadmaps, nodes, directories, r, old(lastId));
      RoadmapAddedKeepsOwners(roadmaps, nodes, r);
      roadmaps := roadmaps + [r];
    }

    /** `roadmapStorage.update`: fails on a missing id; otherwise rewrites the first match only. */
    method UpdateRoadmap(id: Id, patch: RoadmapPatch, now: Timestamp) returns (res: Result<Roadmap, ApiError>)
      modifies this`roadmaps
      ensures RoadmapIndex(old(roadmaps), id).None? ==> res == Err(RoadmapNotFound(id)) && roadmaps == old(roadmaps)
      ensures RoadmapIndex(old(roadmaps), id).Some? ==>
                var i := RoadmapIndex(old(roadmaps), id).value;
                res == Ok(RoadmapUpdated(old(roadmaps)[i], id, patch, now)) && roadmaps == old(roadmaps)[i := res.value]
      ensures RoadmapIds(roadmaps) == RoadmapIds(old(roadmaps))
      ensures old(Valid()) ==> Valid()
      ensures old(NodesOwned()) ==> NodesOwned()
    {
      var index := RoadmapIndex(roadmaps, id);
      if index.None? {
        return Err(RoadmapNotFound(id));
      }
      var i := index.value;
      var updated := RoadmapUpdated(roadmaps[i], id, patch, now);
      RoadmapReplacedKeepsIds(roadmaps, nodes, directories, i, updated);
      roadmaps := roadmaps[i := updated];
      res := Ok(updated);
    }

    /** `roadmapStorage.delete`: removes the roadmap and, in the same call, every node of it. */
    method DeleteRoadmap(id: Id)
      modifies this`roadmaps, this`nodes
      ensures roadmaps == WithoutRoadmap(old(roadmaps), id)
      ensures nodes == NodesNotOf(old(nodes), id)
      ensures old(Valid()) ==> Valid()
      ensures old(NodesOwned()) ==> NodesOwned()
    {
      RoadmapDeletedKeepsUnique(roadmaps, nodes, directories, id, lastId);
      if NodesOwned() {
        CascadeKeepsOwners(roadmaps, nodes, id);
      }
      roadmaps := WithoutRoadmap(roadmaps, id);
      nodes := NodesNotOf(nodes, id);
    }

    /** `roadmapStorage.toggleFavorite`: fails on a missing id; otherwise flips the flag. */
    method ToggleFavorite(id: Id, now: Timestamp) returns (res: Result<Roadmap, ApiError>)
      modifies this`roadmaps
      ensures RoadmapIndex(old(roadmaps), id).None? ==> res == Err(RoadmapNotFound(id)) && roadmaps == old(roadmaps)
      ensures RoadmapIndex(old(roadmaps), id).Some? ==>
                var i := RoadmapIndex(old(roadmaps), id).value;
                res == Ok(Toggled(old(roadmaps)[i], now)) && roadmaps == old(roadmaps)[i := res.value]
      ensures old(Valid()) ==> Valid()
      ensures old(NodesOwned()) ==> NodesOwned()
    {
      var found := FindRoadmap(roadmaps, id);
      if found.None? {
        return Err(RoadmapNotFound(id));
      }
      res := UpdateRoadmap(id, FavoritePatch(!found.value.isFavorite), now);
    }

    /** `roadmapStorage.updateLastAccessed`: stamps the roadmap; a missing id is logged and ignored. */
    method UpdateLastAccessed(id: Id, now: Timestamp)
      modifies this`roadmaps
      ensures RoadmapIndex(old(roadmaps), id).None? ==> roadmaps == old(roadmaps)
      ensures RoadmapIndex(old(roadmaps), id).Some? ==>
                var i := RoadmapIndex(old(roadmaps), id).value;
                roadmaps == old(roadmaps)[i := Stamped(old(roadmaps)[i], now)]
      ensures RoadmapIds(roadmaps) == RoadmapIds(old(roadmaps))
      ensures old(Valid()) ==> Valid()
      ensures old(NodesOwned()) ==> NodesOwned()
    {
      var _ := UpdateRoadmap(id, AccessPatch(now), now);
    }

    /**
     * `nodeStorage.create`: one new node at the end; the roadmap id is not
     * checked here. The caller gets the record as built; the slot keeps it as
     * serialised.
     */
    method CreateNode(roadmapId: Id, draft: NodeDraft, now: Timestamp) returns (n: Node)
      modifies this`nodes, this`lastId
      ensures lastId == old(lastId) + 1 && n.id == NatToDecimal(lastId)
      ensures n == NewNode(roadmapId, draft, n.id, now)
      ensures nodes == old(nodes) + [Persisted(n)]
      ensures old(Valid()) ==> Valid() && n.id !in old(IdBag())
    {
      var id := GenerateId();
      n := NewNode(roadmapId, draft, id, now);
      var stored := Persisted(n);
      NodeAddedKeepsUnique(roadmaps, nodes, directories, stored, old(lastId));
      nodes := nodes + [stored];
    }

    /**
     * `nodeStorage.update`: fails on a missing id; otherwise rewrites the
     * first match only, keeping it as serialised and returning it as built.
     */
    method UpdateNode(id: Id, patch: NodePatch, now: Timestamp) returns (res: Result<Node, ApiError>)
      modifies this`nodes
      ensures NodeIndex(old(nodes), id).None? ==> res == Err(NodeNotFound(id)) && nodes == old(nodes)
      ensures NodeIndex(old(nodes), id).Some? ==>
                var i := NodeIndex(old(nodes), id).value;
                res == Ok(NodeUpdated(old(nodes)[i], id, patch, now)) && nodes == old(nodes)[i := Persisted(res.value)]
      ensures old(Valid()) ==> Valid()
    {
      var index := NodeIndex(nodes, id);
      if index.None? {
        return Err(NodeNotFound(id));
      }
      var i := index.value;
      var updated := NodeUpdated(nodes[i], id, patch, now);
      NodeReplacedKeepsIds(roadmaps, nodes, directories, i, Persisted(updated));
      nodes := nodes[i := Persisted(updated)];
      res := Ok(updated);
    }

    /** `nodeStorage.delete`: removes every node with that id. */
    method DeleteNode(id: Id)
      modifies this`nodes
      ensures nodes == WithoutNode(old(nodes), id)
      ensures old(Valid()) ==> Valid()
      ensures old(NodesOwned()) ==> NodesOwned()
    {
      NodeDeletedKeepsUnique(roadmaps, nodes, directories, id, lastId);
      nodes := WithoutNode(nodes, id);
    }

    /** `directoryStorage.create`: one new directory at the end, with a fresh id. */
    method CreateDirectory(draft: DirectoryDraft, now: Timestamp) returns (d: Directory)
      modifies this`directories, this`lastId
      ensures lastId == old(lastId) + 1 && d.id == NatToDecimal(lastId)
      ensures d == NewDirectory(draft, d.id, now)
      ensures directories == old(directories) + [d]
      ensures old(Valid()) ==> Valid() && d.id !in old(IdBag())
    {
      var id := GenerateId();
      d := NewDirectory(draft, id, now);
      DirectoryAddedKeepsUnique(roadmaps, nodes, directories, d, old(lastId));
      directories := directories + [d];
    }

    /** `directoryStorage.update`: fails on a missing id; otherwise rewrites the first match only. */
    method UpdateDirectory(id: Id, patch: DirectoryPatch, now: Timestamp) returns (res: Result<Directory, ApiError>)
      modifies this`directories
      ensures DirectoryIndex(old(directories), id).None? ==>
                res == Err(DirectoryNotFound(id)) && directories == old(directories)
      ensures DirectoryIndex(old(directories), id).Some? ==>
                var i := DirectoryIndex(old(directories), id).value;
                res == Ok(DirectoryUpdated(old(directories)[i], id, patch, now)) &&
                directories == old(directories)[i := res.value]
      ensures old(Valid()) ==> Valid()
    {
      var index := DirectoryIndex(directories, id);
      if index.None? {
        return Err(DirectoryNotFound(id));
      }
      var i := index.value;
      var updated := DirectoryUpdated(directories[i], id, patch, now);
      DirectoryReplacedKeepsIds(roadmaps, nodes, directories, i, updated);
      directories := directories[i := updated];
      res := Ok(updated);
    }

    /** `directoryStorage.delete`: removes the directory only; nothing that refers to it is touched. */
    method DeleteDirectory(id: Id)
      modifies this`directories
      ensures directories == WithoutDirectory(old(directories), id)
      ensures old(Valid()) ==> Valid()
    {
      DirectoryDeletedKeepsUnique(roadmaps, nodes, directories, id, lastId);
      directories := WithoutDirectory(directories, id);
    }
  }
}

# Roadmap editor: local-mode backend and client state, in Dafny

The roadmap editor can run without a server: a substitute backend keeps
roadmaps, their canvas nodes and the directories that file them in the
browser's key-value storage, and the editor's client keeps its own state in a
reducer store. This project models three parts of that code:

- **Storage layer** (`LocalStorage`, local_storage.dfy). One class, `Store`.
  Each of the four storage keys becomes one field: `roadmaps`, `nodes`,
  `directories` and the shared counter `lastId`. Every read of a slot parses
  the last JSON written to it, so the model reads the field directly. The
  queries (`getById`, `getByRoadmap`, `getLastAccessed`, `getRootContents`)
  are functions over the collections. The mutators (`create`, `update`,
  `delete`, `toggleFavorite`, `updateLastAccessed`, `clearAllData`,
  `generateId`) are methods that rewrite the fields.
- **Mock API** (`MockApi`, mock_api.dfy). One method per API call, all
  working on the same `Store`. The storage layer does not check that a
  node's roadmap exists, or that a node is reached through its own roadmap;
  the API does, and the model returns those failures as `Err`. Reading a
  roadmap's nodes, or creating a node in it, stamps the roadmap's access time.
- **Client store** (`RoadmapStore`, roadmap_store.dfy). Every reducer action
  is a pure `State -> State` function. The module also has the two
  converters between an API node and a canvas node.

Support modules:
- `Wrappers` holds `Option`, `Result` and `Field`. A `Field` is a key of a
  partial update: absent (`Keep`), or present with a value that may be
  `undefined` (`Put`).
- `Seqs` holds the JavaScript `filter`, `findIndex` and `map`.
- `Decimal` holds the decimal rendering of ids and its inverse, `parseInt`.
- `ApiTypes` holds the records, the patches, the object-spread merge and the
  error messages.

Two invariants of the store are proved:
- `Store.Valid`. Every stored id was issued by the counter, and no id occurs
  twice across the three collections.
- `Store.NodesOwned`. Every node belongs to a stored roadmap.

Every mutator preserves both invariants where the source does. The contracts
are written as `old(Valid()) ==> Valid()`, so no call gains a precondition.
The storage layer alone breaks `NodesOwned` only through `nodeStorage.create`
and `nodeStorage.update`, which accept any roadmap id; the API never hands
them one that breaks it.

Timestamps are an injected clock value `now: nat`, passed to each call that
reads the clock. Positions, thumbnails and the open `data` bag are opaque
values.

Behaviour of the source that the model keeps:
- `mockRoadmapApi.update` always passes all four request keys to the storage
  update. A key the caller leaves out therefore clears the stored title,
  description, thumbnail or directory (`MockApi.UpdateRoadmap`). For this
  reason a stored roadmap's title is optional in the model.
- `getLastAccessed` sorts with a stable sort, so on a tie it returns the
  first roadmap in storage order (`LocalStorage.LatestIndex`).
- `getRootContents` treats a directory as a root when `!parentId` holds. That
  includes a parent id equal to the empty string (`LocalStorage.IsRoot`).
- A node `update` can change a node's `roadmapId` at the storage layer. The
  API's update request type has no such key.
- Deleting a directory leaves its children and its roadmaps pointing at it.

## Model

| member | source | states |
|---|---|---|
| Seqs.Filter | src/services/localStorageService.ts:71 | `filter`: at most as long as its input; every element kept is from the input and satisfies the test, and every input element that satisfies it is kept |
| Seqs.FindIndex | src/services/localStorageService.ts:52 | `findIndex`: an index whose element satisfies the test with no earlier one that does; none (`-1`) exactly when no element does |
| Seqs.Map | src/services/localStorageService.ts:189-193 | `map`: same length, and each element is the function applied to the element at that index |
| Decimal.ParseDecimal | src/services/localStorageService.ts:12 | `parseInt` of a digit string: the empty string reads as 0 and a one-digit string reads as that digit |
| Decimal.ParseIgnoresLeadingZero | src/services/localStorageService.ts:12 | a leading `'0'` does not change what `parseInt` reads |
| Decimal.NatToDecimal | src/services/localStorageService.ts:14-15 | `toString` of a counter value is a non-empty string of digits with no leading zero |
| Decimal.ParseNatToDecimal | src/services/localStorageService.ts:12-15 | `parseInt` reads back exactly the number `toString` wrote, so the counter round-trips through its storage slot |
| Decimal.DecimalInjective | src/services/localStorageService.ts:11-16 | distinct counter values render as distinct ids |
| Decimal.LeadingNonZeroPositive | src/services/localStorageService.ts:12 | a numeral starting with a non-zero digit reads as a positive number |
| Decimal.CanonicalIsDecimal | src/services/localStorageService.ts:12-15 | a digit string with no superfluous leading zero is exactly what `toString` writes for the value `parseInt` reads from it |
| LocalStorage.IssuedIsCounterText | src/services/localStorageService.ts:11-16 | every id the invariant admits is the counter's own rendering of one of 1..lastId |
| LocalStorage.IssuedSameValue | src/services/localStorageService.ts:11-16 | two admitted ids that stand for the same counter value are the same id, so `"1"` and `"01"` cannot both be stored |
| Seqs.FilterAppend | src/services/localStorageService.ts:69-78 | `filter` keeps the original order: filtering a concatenation is the concatenation of the filtered parts |
| Seqs.FilterKeepsAll | src/stores/roadmapStore.ts:77 | a `filter` that rejects nothing returns its input unchanged |
| Seqs.FilterKeepsNone | src/services/localStorageService.ts:122-125 | a `filter` that keeps nothing returns `[]` |
| Seqs.MapFilterSubBag | src/services/localStorageService.ts:69-78 | the ids left after a `filter` are a sub-multiset of the ids before it |
| Seqs.MapFilterKeeps | src/services/localStorageService.ts:69-78 | an element the `filter` keeps still contributes its image after the filter |
| ApiTypes.MergeRoadmap | src/services/localStorageService.ts:58-60 | `{ ...roadmap, ...updates }`: each field is the patch's value where the patch has the key (even when that value is `undefined`) and the roadmap's otherwise |
| ApiTypes.MergeNode | src/services/localStorageService.ts:158-160 | the same spread for a node, field by field |
| ApiTypes.MergeDirectory | src/services/localStorageService.ts:222-224 | the same spread for a directory, field by field |
| ApiTypes.ApiError.Message | src/services/localStorageService.ts:55 | the exact text of each thrown error, with its identifiers inserted (also lines 84, 155 and 219 here, and mockApi.ts lines 60, 81, 101, 116 and 129) |
| ApiTypes.MergeNoChange | src/services/localStorageService.ts:58-63 | spreading the empty patch over a roadmap leaves it as it was |
| LocalStorage.FreshIdKeepsUnique | src/services/localStorageService.ts:11-16 | the next counter value is not an id already stored, and adding it keeps all ids issued and unique |
| LocalStorage.ShrinkKeepsUnique | src/services/localStorageService.ts:69-78 | removing records keeps the remaining ids issued and unique |
| LocalStorage.RoadmapAddedKeepsUnique | src/services/localStorageService.ts:33-48 | a roadmap stored under the next counter value has an id no collection holds yet, and all ids stay issued and unique |
| LocalStorage.NodeAddedKeepsUnique | src/services/localStorageService.ts:132-148 | the same for a node stored under the next counter value |
| LocalStorage.DirectoryAddedKeepsUnique | src/services/localStorageService.ts:196-212 | the same for a directory stored under the next counter value |
| LocalStorage.RoadmapReplacedKeepsIds | src/services/localStorageService.ts:50-67 | rewriting a roadmap under its own id changes no stored id and orphans no node |
| LocalStorage.NodeReplacedKeepsIds | src/services/localStorageService.ts:150-167 | rewriting a node under its own id changes no stored id |
| LocalStorage.DirectoryReplacedKeepsIds | src/services/localStorageService.ts:214-231 | rewriting a directory under its own id changes no stored id |
| LocalStorage.RoadmapDeletedKeepsUnique | src/services/localStorageService.ts:69-78 | after the roadmap delete and its cascade the remaining ids are still issued and unique |
| LocalStorage.NodeDeletedKeepsUnique | src/services/localStorageService.ts:169-173 | after a node delete the remaining ids are still issued and unique |
| LocalStorage.DirectoryDeletedKeepsUnique | src/services/localStorageService.ts:233-237 | after a directory delete the remaining ids are still issued and unique |
| LocalStorage.RoadmapAddedKeepsOwners | src/services/localStorageService.ts:33-48 | storing one more roadmap leaves every node owned |
| LocalStorage.NodeReplacedKeepsOwners | src/services/mockApi.ts:106-121 | rewriting a node in place without changing its roadmap leaves every node owned |
| LocalStorage.RoadmapIndex | src/services/localStorageService.ts:52 | `findIndex`: the first roadmap with that id, or none exactly when no roadmap has it |
| LocalStorage.FindRoadmap | src/services/localStorageService.ts:28-31 | `getById`: null exactly when no roadmap has the id, otherwise the first roadmap with that id |
| LocalStorage.NodeIndex | src/services/localStorageService.ts:152 | `findIndex` over nodes: the first match, or none exactly when the id is absent |
| LocalStorage.FindNode | src/services/localStorageService.ts:127-130 | `nodeStorage.getById`: null exactly when the id is absent, otherwise the first node with it |
| LocalStorage.DirectoryIndex | src/services/localStorageService.ts:216 | `findIndex` over directories: the first match, or none exactly when the id is absent |
| LocalStorage.WithoutRoadmap | src/services/localStorageService.ts:71 | no roadmap with the id is left; every other roadmap stays |
| LocalStorage.NodesOf | src/services/localStorageService.ts:122-125 | `getByRoadmap`: exactly the nodes whose `roadmapId` is the given id |
| LocalStorage.NodesNotOf | src/services/localStorageService.ts:75-77 | the cascade: no node of the roadmap is left; every other node stays |
| LocalStorage.WithoutNode | src/services/localStorageService.ts:169-173 | no node with the id is left; every other node stays |
| LocalStorage.WithoutDirectory | src/services/localStorageService.ts:233-237 | no directory with the id is left; every other directory stays |
| LocalStorage.IsRoot | src/services/localStorageService.ts:188 | `!d.parentId`: a directory is a root exactly when its parent id is absent or the empty string |
| LocalStorage.RootIsNoChild | src/services/localStorageService.ts:187-193 | a root directory is never listed among the children of a directory whose id the counter issued |
| LocalStorage.ChildrenOf | src/services/localStorageService.ts:191 | exactly the directories whose `parentId` is the given id, one level only |
| LocalStorage.RoadmapsIn | src/services/localStorageService.ts:192 | exactly the roadmaps whose `directoryId` is the given id |
| LocalStorage.RootContents | src/services/localStorageService.ts:183-194 | one entry per root directory, in storage order, and only root directories; each entry's `children` and `roadmaps` are exactly that directory's direct children and filed roadmaps |
| LocalStorage.EveryRootGrouped | src/services/localStorageService.ts:187-193 | when every root is kept by the filter and the grouping has one entry per kept directory, every root directory gets an entry |
| LocalStorage.LatestIndex | src/services/localStorageService.ts:93-104 | none exactly when no roadmap has an access time; otherwise an accessed roadmap whose time is at least every other, and the first such in storage order |
| LocalStorage.LastAccessed | src/services/localStorageService.ts:93-104 | `getLastAccessed`: null exactly when no roadmap was accessed; otherwise a stored roadmap with the latest access time, the first such in storage order as the stable sort leaves it |
| LocalStorage.CascadeKeepsOwners | src/services/localStorageService.ts:69-78 | after the cascading delete every surviving node belongs to a surviving roadmap |
| LocalStorage.NewRoadmap | src/services/localStorageService.ts:37-43 | the new roadmap has the given id, both timestamps now, `isFavorite` false, and every other field from the draft |
| LocalStorage.NewNode | src/services/localStorageService.ts:137-143 | the new node has the given id and roadmap id, both timestamps now, and every other field from the draft |
| LocalStorage.NewDirectory | src/services/localStorageService.ts:200-207 | the new directory has the given id, both timestamps now, and the draft's name and parent |
| LocalStorage.PersistedBag | src/services/localStorageService.ts:146 | `JSON.stringify` keeps exactly the bag entries whose value is not `undefined`, with their values |
| LocalStorage.Persisted | src/services/localStorageService.ts:145-146 | a stored node reads back as the same record except that its bag has lost its `undefined` entries |
| LocalStorage.PersistedIdempotent | src/services/localStorageService.ts:117-120 | storing a node that was read back changes nothing more |
| LocalStorage.RoadmapUpdated | src/services/localStorageService.ts:58-63 | the updated roadmap keeps the looked-up id even against the patch, takes `updatedAt` from the clock, and takes each other field from the patch exactly where the patch has the key |
| LocalStorage.NodeUpdated | src/services/localStorageService.ts:158-163 | the same for a node: id kept, `updatedAt` now, every other field from the patch where present |
| LocalStorage.DirectoryUpdated | src/services/localStorageService.ts:222-227 | the same for a directory |
| LocalStorage.Toggled | src/services/localStorageService.ts:80-87 | `toggleFavorite` negates the flag, sets `updatedAt`, and changes nothing else |
| LocalStorage.ToggleTwiceRestores | src/services/localStorageService.ts:80-87 | toggling twice restores the flag and the whole record except `updatedAt` |
| LocalStorage.Stamped | src/services/localStorageService.ts:106-108 | `updateLastAccessed` sets only the access time and `updatedAt`, both to now |
| LocalStorage.Store.constructor | src/services/localStorageService.ts:3-8 | empty slots: no records and a counter reading `'0'`; both invariants hold |
| LocalStorage.Store.ClearAllData | src/services/localStorageService.ts:241-247 | all four slots are emptied; both invariants hold afterwards |
| LocalStorage.Store.GenerateId | src/services/localStorageService.ts:11-16 | the counter goes up by exactly one and the id returned is its new value in decimal |
| LocalStorage.Store.CreateRoadmap | src/services/localStorageService.ts:33-48 | one record appended at the end, with a fresh id, `isFavorite` false and both timestamps now; the earlier records unchanged; invariants kept |
| LocalStorage.Store.UpdateRoadmap | src/services/localStorageService.ts:50-67 | a missing id fails with "not found" and changes nothing; otherwise only the first matching index is rewritten, the length and all ids are unchanged, invariants kept |
| LocalStorage.Store.DeleteRoadmap | src/services/localStorageService.ts:69-78 | the roadmap and, in the same call, all its nodes are removed; the rest stay in order; ids stay unique and no node is orphaned |
| LocalStorage.Store.ToggleFavorite | src/services/localStorageService.ts:80-87 | a missing id fails and changes nothing; otherwise the first match is replaced by its toggled form |
| LocalStorage.Store.UpdateLastAccessed | src/services/localStorageService.ts:106-112 | never fails: a missing id leaves the roadmaps unchanged; otherwise the first match is stamped |
| LocalStorage.Store.CreateNode | src/services/localStorageService.ts:132-148 | one node appended at the end with a fresh id and the given roadmap id, timestamps now, stored as serialised and returned as built; ids stay unique |
| LocalStorage.Store.UpdateNode | src/services/localStorageService.ts:150-167 | a missing id fails and changes nothing; otherwise only the first matching index is rewritten, stored as serialised and returned as built |
| LocalStorage.Store.DeleteNode | src/services/localStorageService.ts:169-173 | every node with the id is removed and the rest stay; invariants kept |
| LocalStorage.Store.CreateDirectory | src/services/localStorageService.ts:196-212 | one directory appended at the end with a fresh id; ids stay unique |
| LocalStorage.Store.UpdateDirectory | src/services/localStorageService.ts:214-231 | a missing id fails and changes nothing; otherwise only the first matching index is rewritten |
| LocalStorage.Store.DeleteDirectory | src/services/localStorageService.ts:233-237 | every directory with the id is removed; nothing else is touched |
| MockApi.WriteThrough | src/services/mockApi.ts:30-35 | the update patch always has all four keys title, description, thumbnail and directory, carrying the request's values, and no other key |
| MockApi.OwnedBy | src/services/mockApi.ts:99-102 | false when no node has the id; true only if some node with the id is in the roadmap; true when a node with the id exists and every one is in the roadmap |
| MockApi.CreateRoadmap | src/services/mockApi.ts:16-25 | the stored roadmap carries the request's title, description, thumbnail and directory, is not a favorite and has no access time; appended at the end |
| MockApi.UpdateRoadmap | src/services/mockApi.ts:27-38 | a missing id fails; otherwise title, description, thumbnail and directory are all overwritten from the request, absent keys included, while the flag, creation time and access time are kept |
| MockApi.DeleteRoadmap | src/services/mockApi.ts:40-43 | afterwards no roadmap has the id and `getByRoadmap` finds no node of it |
| MockApi.NoNodesLeft | src/services/mockApi.ts:135-142 | when no node has the roadmap id, the node list of that roadmap is empty |
| MockApi.GetAllRoadmaps | src/services/mockApi.ts:45-48 | the stored roadmaps, unchanged |
| MockApi.ToggleFavorite | src/services/mockApi.ts:50-54 | a missing id fails; otherwise the returned roadmap has the negated flag and is what is stored |
| MockApi.GetLastAccessed | src/services/mockApi.ts:56-63 | fails with "No roadmaps found" exactly when no roadmap has an access time; otherwise a stored roadmap with the latest access time, the first such in storage order |
| MockApi.GetCount | src/services/mockApi.ts:65-68 | the number of stored roadmaps |
| MockApi.CreateNode | src/services/mockApi.ts:73-95 | an unknown roadmap fails and leaves roadmaps, nodes and counter unchanged; otherwise the roadmap is stamped and one node with that roadmap id is appended; no node is orphaned |
| MockApi.AppendOwnedNode | src/services/mockApi.ts:77-94 | appending a node whose roadmap is stored keeps every node owned |
| MockApi.GetNode | src/services/mockApi.ts:97-104 | fails exactly when the first node with the id is missing or belongs to another roadmap; otherwise exactly that first node, as `find` returns it |
| MockApi.UpdateNode | src/services/mockApi.ts:106-121 | fails and changes nothing when the node is missing or belongs to another roadmap; otherwise rewrites it and keeps its roadmap |
| MockApi.DeleteNode | src/services/mockApi.ts:123-133 | fails and changes nothing when the node is missing or belongs to another roadmap; otherwise no node with that id is left |
| MockApi.GetNodesByRoadmap | src/services/mockApi.ts:135-142 | never fails: exactly the nodes of that roadmap, and the roadmap is stamped when it exists |
| MockApi.CreateDirectory | src/services/mockApi.ts:147-154 | one directory with the request's name and parent and a fresh id, appended at the end |
| MockApi.UpdateDirectory | src/services/mockApi.ts:156-160 | a missing id fails and changes nothing; otherwise the first match is rewritten from the request |
| MockApi.DeleteDirectory | src/services/mockApi.ts:162-165 | only that directory is removed; every other directory stays, and roadmaps and child directories are untouched |
| MockApi.GetRootContents | src/services/mockApi.ts:167-170 | the storage layer's root grouping |
| RoadmapStore.MergeFlowNode | src/stores/roadmapStore.ts:91 | `{ ...node, ...updates }` on a canvas node: each field is the patch's where the patch has the key, the node's otherwise |
| RoadmapStore.SetCurrentRoadmap | src/stores/roadmapStore.ts:52 | sets the current roadmap; no other field changes |
| RoadmapStore.SetRoadmaps | src/stores/roadmapStore.ts:54 | stores the list, or `[]` for a non-array; no other field changes |
| RoadmapStore.AddRoadmap | src/stores/roadmapStore.ts:56-57 | exactly one roadmap more, at the end; no other field changes |
| RoadmapStore.UpdateRoadmap | src/stores/roadmapStore.ts:59-72 | merges into every roadmap with the id and leaves the others; merges into the current roadmap only when its id matches |
| RoadmapStore.DeleteRoadmap | src/stores/roadmapStore.ts:74-82 | no roadmap with the id is left, the others stay; the current roadmap is cleared exactly when it had the id |
| RoadmapStore.SetNodes | src/stores/roadmapStore.ts:84 | stores the list, or `[]` for a non-array; no other field changes |
| RoadmapStore.AddNode | src/stores/roadmapStore.ts:86 | exactly one node more, at the end; no other field changes |
| RoadmapStore.UpdateNode | src/stores/roadmapStore.ts:88-99 | merges into every node with the id and leaves the others; merges into the selection only when its id matches |
| RoadmapStore.DeleteNode | src/stores/roadmapStore.ts:101-110 | no node with the id and no edge touching it is left; every other node and edge stays; the selection is cleared exactly when it was that node |
| RoadmapStore.SetEdges | src/stores/roadmapStore.ts:112 | stores the list, or `[]` for a non-array; no other field changes |
| RoadmapStore.AddEdge | src/stores/roadmapStore.ts:114 | exactly one edge more, at the end; no other field changes |
| RoadmapStore.DeleteEdge | src/stores/roadmapStore.ts:116-123 | removes only the edges with the id; nodes and selection unchanged |
| RoadmapStore.SetSelectedNode | src/stores/roadmapStore.ts:125 | sets the selection; no other field changes |
| RoadmapStore.SetLoading | src/stores/roadmapStore.ts:127 | sets the loading flag; no other field changes |
| RoadmapStore.SetError | src/stores/roadmapStore.ts:129 | sets the error; no other field changes |
| RoadmapStore.Reset | src/stores/roadmapStore.ts:37-45 | every collection empty, every optional field null, not loading, whatever the state was |
| RoadmapStore.DeleteNodeKeepsEdgesAttached | src/stores/roadmapStore.ts:101-110 | if every edge joins two nodes before `deleteNode`, it still does afterwards: no dangling edge |
| RoadmapStore.AddNodeKeepsEdgesAttached | src/stores/roadmapStore.ts:86 | adding a node keeps every edge attached |
| RoadmapStore.AddEdgeKeepsEdgesAttached | src/stores/roadmapStore.ts:114 | an edge between two nodes on the canvas keeps every edge attached |
| RoadmapStore.DeleteEdgeKeepsEdgesAttached | src/stores/roadmapStore.ts:116-123 | deleting an edge keeps the others attached |
| RoadmapStore.DeleteAddedNode | src/stores/roadmapStore.ts:86-110 | deleting a node just added equals deleting its id before the add |
| RoadmapStore.DeleteAddedRoadmap | src/stores/roadmapStore.ts:56-82 | deleting a roadmap just added equals deleting its id before the add |
| RoadmapStore.DeleteRoadmapIdempotent | src/stores/roadmapStore.ts:74-82 | deleting a roadmap twice equals deleting it once |
| RoadmapStore.UpdateRoadmapNoChange | src/stores/roadmapStore.ts:59-72 | updating with the empty patch leaves the state as it was |
| RoadmapStore.ToFlowNode | src/stores/roadmapStore.ts:140-149 | keeps id, type and position; the data bag has `title` and `description`, taken from the node unless its own bag has those keys, and holds every key of the node's bag |
| RoadmapStore.TextOrEmpty | src/stores/roadmapStore.ts:157-158 | the bag's string under the key, else `''` (a truthy non-string is read as `''` as well, which `data.key \|\| ''` would pass through) |
| RoadmapStore.ToNodeFields | src/stores/roadmapStore.ts:151-162 | keeps id, position and data, takes the given roadmap id; a missing title or description becomes `''` and a missing type `default` |
| RoadmapStore.CanvasRoundTrip | src/stores/roadmapStore.ts:140-162 | a node whose bag has no `title` or `description` comes back from the canvas with its id, roadmap, title, type and position, and `''` for a missing description |
| RoadmapStore.StoredCanvasRoundTrip | src/stores/roadmapStore.ts:140-162 | for a node read back from storage, a bag `title` or `description` held as `undefined` is gone, so the node's own title and description survive the round trip |
| RoadmapStore.BagTitleWins | src/stores/roadmapStore.ts:144-148 | a `title` in the node's own bag overrides the node's title on the round trip |

## Left out

- Asynchrony: `delay()` before every API call, and the lost update between
  two calls in flight at once. Every call runs to completion in the model.
- The browser's key-value storage and `JSON.parse`/`JSON.stringify`. Each
  slot is a field. The serialisation is modelled only where it changes what
  is read back: a node's attribute bag loses its `undefined` entries when the
  node is stored (`LocalStorage.Persisted`), while `create` and `update`
  return the record as built. A top-level optional field that is `undefined`
  is dropped too, but it reads back as `undefined` all the same, so roadmaps
  and directories are stored unchanged.
- `new Date().toISOString()` and the date parsing in `getLastAccessed`.
  Timestamps are a clock value `nat` passed in by the caller, once per call.
  Where the source reads the clock more than once in one call, the model
  uses that one value for every read:
  - `create` reads the clock for `createdAt` and again for `updatedAt`;
  - `updateLastAccessed` reads it for `lastAccessedAt` and again inside
    `update` for `updatedAt`, so `LocalStorage.Stamped` sets both to the
    same time;
  - `mockNodeApi.create` stamps the roadmap and then creates the node, so
    `MockApi.CreateNode` gives the stamp and the node's timestamps the same
    time.
- `URL.createObjectURL` for thumbnails. The request carries the URL string
  it would produce, or nothing.
- `console.log`/`console.warn` and `initializeSampleData` (a fixed seed
  script).
- Number precision of the id counter. JavaScript numbers lose exactness
  above 2^53 and change rendering at 10^21. The model's counter is unbounded
  and always renders in plain decimal.
- A counter slot holding anything but a numeral the store itself wrote.
  `parseInt` of foreign text is not modelled.
- `getRootContents` returns `children` and `roadmaps` for each root. The
  empty `children`/`roadmaps` arrays that `directoryStorage.create` stores on
  the record itself are not kept; the grouping replaces them anyway.
- Values in the open `data` bag are flat (text, number, boolean, null,
  undefined), and canvas node types are the three known ones. Nested values
  and other type strings are not modelled.
- A required key that a patch carries explicitly as `undefined` (for
  example `title: undefined` in a node update). In the model such a key is
  present with a value or absent. Only optional fields can be set to
  `undefined` by a patch.
- React Flow's other node and edge fields (handles, styles, `selected` and
  so on) are not part of the canvas records.
- RoadmapStore.TextOrEmpty, RoadmapStore.ToNodeFields: a `title` or
  `description` in the bag that is a truthy value but not a string (a
  number, `true`) is read as `''`; the source would pass the value through
  unchanged, but the record's field is typed as a string here.
- React components, query hooks, the HTTP client and build configuration
  are not part of this model.

# Verification of relrc

relrc keeps directed acyclic graphs of immutable, shared nodes. A `RelRc` owns strong references to its parents and keeps a lazily pruned list of weak references to its children; a `Registry` names nodes by id; a `HistoryGraph` is a view of some of the nodes of a registry; graphs can be serialized and rebuilt; and single nodes can be detached, sent to another process and attached there.

The project models these components and proves what they promise over every input, every run and every interleaving. `dafny verify dfyconfig.toml` checks all of it.

## How the model is built

**Memory** (`HeapModel`, `HeapSteps`, `HeapNew`, `HeapDrop`, `HeapOps`, `HeapRegistry`, `HeapRuns`, `HeapEffects`, `HeapTracked`, `HeapExamples`, `HeapObject`, `HeapBuild`). A world is a sequence of allocations with a strong and a weak count. The node inside an allocation dies when the strong count reaches zero; the address can be reused when both counts are zero, and the allocator may hand out any free address. References are addresses. Each weak reference also carries the creation stamp of the allocation it was made from; no operation looks at it, it only serves to say whether an upgrade still gives the same node. The invariant `HeapModel.Inv` says that both counters are exact with respect to all references there are (handles of the program, `source` and `target` fields, `outgoing` lists, registry entries), that every node has the value and parents it was created with, that `outgoing` lists contain every edge to a live child in order of creation, that the two maps of every registry are inverse to each other, and that registrations made through `try_register_in` have an entry exactly while the node lives. `HeapObject.Heap` is the same state as an object updated in place; each of its operations is proved to be a run of the elementary steps, `HeapRuns.Apply`, whose effects are stated in `HeapEffects.Effect`; longer operations return the run they perform as a ghost result.

**Graph view and serializer** (`History`, `HistoryObject`, `HistoryExamples`, `AllAncestors`, `Deserialization`, `Serialization`, `RelRcSerialization`, `RelRcReading`). The graph view is defined on the heap. The serializer works on nodes listed by creation stamp; `RelRcSerialization` and `RelRcReading` connect writing and reading to the heap.

**Detach, attach and the transfer between processes** (`PostOrder`, `DepthFirst`, `Detached`, `Attach`, `AttachHeap`, `Protocol`). The hash of a node is an abstract function of its value and its incoming (parent hash, edge value) pairs that is injective and never zero. The two processes of the pull protocol are a system of steps over one queue for each message tag; that messages with one tag arrive in the order in which they were sent is the non-overtaking rule in section 3.5 of MPI-3.1. Any schedule of the two processes is allowed, and any required hash may be chosen as the next request.

A panic of the original (a failing `expect`, `unwrap`, index or assertion) is a failure result of the model.

## Where the code does less than its comments say

The model follows the code.

- `all_ancestors` ends at the first node it meets again. `AllAncestors.NotAlwaysComplete` gives a node with three parents for which an ancestor is missing; `AllAncestors.CompleteIff` says exactly when none is.
- `post_order_for_each` marks a node when it is pushed, not when it is entered, so it is not always a post-order (`PostOrder.NotAlwaysPostOrder`); `PostOrder.PostOrderForEach` says exactly when it is in terms of its marks, `DepthFirst.PostOrderIff` in terms of the graph and an ordinary depth-first search; `PostOrder.CrossFree` is sufficient and needs no search.
- As a consequence `attach` can panic although `attaches_to` holds (`Attach.AttachMayPanic`); `Attach.AttachOkIff` gives the exact condition.
- `try_set_register` refuses a different registry even after the one the node is linked to has been dropped (`HeapExamples.RefusedForEver`). Since `RelRc::to_serialized` links all ancestors, a node that was serialized with one registry can never be serialized with another one (`RelRcSerialization.SerializeRoundTrip`).
- `HistoryGraph::to_serialized` panics unless every entry of the registry is alive and every parent of a registered or visited node is registered or visited, also for entries that have nothing to do with the graph (`Serialization.DeadEntryBlocks`, `Serialization.OrphanEntryBlocks`); and a graph that can be written cannot always be read back (`Serialization.WrittenNotReadable`, with the exact condition in `Serialization.ReadableIff`).
- `insert_ancestors` says that it inserts all ancestors. It skips a parent that is in the graph together with that parent's own parents, so on a graph that is not closed under ancestors some are left out (`HistoryExamples.GrandparentLeftOut`); `HistoryObject.HistoryGraph.InsertAncestors` says exactly which are added.
- `RelRc::from_serialized` links the nodes of the graph to a registry that is dropped right away. They can be used, but never be registered or serialized again (`RelRcReading.WriteAfterRead`); registering is refused exactly for the nodes of the graph, and serializing exactly for nodes with an ancestor in it (`RelRcReading.RefusedIffInGraph`).
- `free_node_ids` says that `get` cleans up dead entries; `get` changes nothing.

## Model

| member | source | states |
|---|---|---|
| `HeapNew.WithParentsEffect` | src/node.rs:63-77 | creating a node keeps the invariant; the new node is the only new one, has the given value and parents in order and no link; all other nodes keep value, parents and link, and at most their `outgoing` lists grow |
| `HeapDrop.GetIdExact` | src/registry.rs:75-77 | the address lookup finds exactly the entry made for this very node, never that of an earlier node at the same address |
| `HeapDrop.DropNodeCore` | src/node.rs:161-178 | the death of a node turns its references into references still to be dropped and keeps counters, edges and registries right |
| `HeapDrop.DropNodeRegs` | src/node.rs:166-176 | the death of a node takes exactly its own entry in the registry it is linked to, and no other entry anywhere |
| `HeapDrop.ReleaseInv` | src/node.rs:161-178 | a cascade of drops ends, keeps the invariant, consumes exactly the references dropped, leaves every node that is still alive as it was, and a registry loses exactly the entries of nodes that died while linked to it |
| `HeapDrop.ReleaseConcat` | src/node.rs:161-178 | dropping one list of references and then another is dropping their concatenation, so fields can be dropped one after the other |
| `HeapOps.AllOutgoingInv` | src/node.rs:346-357 | `all_outgoing` keeps the invariant, changes only the list it prunes and the counters, and adds one handle for each returned edge |
| `HeapOps.AllOutgoingExact` | src/node.rs:346-357 | the edges returned are exactly the pairs of a live child and a position at which it has this parent, each once and in order of creation |
| `HeapOps.UpgradeExact` | src/node.rs:189-191 | a weak reference upgrades exactly while the node it was made from is alive, and then to that node, however often its address was reused |
| `HeapOps.UpgradeThenDrop` | src/registry.rs:97-101 | upgrading and dropping the result changes nothing: temporary upgrades never remove a registration |
| `HeapRegistry.GetInverse` | src/registry.rs:97-101 | `get` and `get_id` are inverse to each other on live nodes |
| `HeapRegistry.FromSlotmapOk` | src/registry.rs:43-49 | rebuilding the address map from the entries gives two maps that are inverse to each other |
| `HeapRegistry.AddNodeInv` | src/registry.rs:58-70 | adding a node returns the id it already has or a new one and changes no other entry |
| `HeapRegistry.TryRegisterInv` | src/node.rs:109-143 | registration fails exactly for a node linked to a different registry, and then changes nothing; otherwise the node is linked and entered |
| `HeapRegistry.RemoveInv` | src/registry.rs:156-162 | an explicit removal takes away exactly this entry, leaves all nodes and all other registries as they were, and keeps the invariant; an unknown id changes nothing |
| `HeapRegistry.AddThenRemove` | src/registry.rs:58-70 | removing a node that was just added restores both maps and the counters; only the id is used up |
| `HeapRegistry.NewRegistryInv` | src/registry.rs:32-37 | a new registry keeps the invariant |
| `HeapRegistry.CloseRegistryInv` | src/registry.rs:179-183 | dropping the last reference to an emptied registry keeps the invariant |
| `HeapRegistry.RebuildInv` | src/registry.rs:43-49 | making a registry from given ids and weak references, dead ones included, keeps the invariant |
| `HeapRegistry.RebuiltSame` | src/registry.rs:43-49 | `from_slotmap` on the entries of a registry gives that registry |
| `HeapRuns.ApplyInv` | src/node.rs:51-178 | every elementary operation keeps the invariant: creating a node, cloning and dropping handles and weak references, upgrading, `all_outgoing`, opening and closing a registry, making one from given entries, adding, registering and removing; the other operations of nodes, registries and graphs modelled here are runs of these |
| `HeapEffects.ApplyEffect` | src/node.rs:51-178 | what each of these operations does, without its definition: a creation moves the given handles into the new node, `clone` and `upgrade` give one handle (the latter exactly if the node the reference was made from is alive), `drop` and the drop of a weak reference take exactly that one, `downgrade` gives one weak reference, `all_outgoing` gives each child one handle per edge and removes only entries of dead children, adding and registering leave the node entered (and linked) and change no other entry or link, a removal takes exactly its entry, a new registry is empty; nothing else changes |
| `HeapEffects.StepEffect` | src/node.rs:51-178 | the same for a run of one step, which is what the methods of the heap object promise |
| `HeapEffects.HandleKeepsNode` | src/node.rs:27-34 | over any run that neither drops a handle to a node nor gives one away as a parent, the node stays alive at its address and the program has no fewer handles to it |
| `HeapEffects.UpgradeHolds` | src/node.rs:189-191 | after an upgrade of a reference to a live node all other handles to it can be dropped and the node is still alive |
| `HeapRuns.RunsConcat` | src/node.rs:51-178 | runs can be put one after the other, so what holds of all runs holds of a program that mixes the operations below |
| `HeapRuns.RunInvariant` | src/node.rs:51-178 | in every run, after every operation, the strong count of each node is the number of handles and `source` fields that refer to it, the weak count is exact too, and the rest of the invariant holds |
| `HeapRuns.AliveIffHeld` | src/node.rs:27-34 | a node is alive exactly while there is a handle to it or to one of its descendants |
| `HeapRuns.NothingLeaks` | src/node.rs:27-34 | when all handles, weak references and registry entries are gone, all memory is free |
| `HeapRuns.RunEvolves` | src/node.rs:27-34 | over any run values and parents never change, a link once set never changes, dead nodes stay dead, and registries never give an id to a second node |
| `HeapRuns.EntryStays` | src/registry.rs:17-20 | no operation other than its explicit removal loses the entry of a node that stays alive |
| `HeapRuns.RunKeepsId` | src/registry.rs:17-20 | over any run a registered node keeps its id for as long as it lives, unless the id is removed explicitly while it does |
| `HeapTracked.RegisterTracks` | src/node.rs:109-117 | a successful `try_register_in` starts such a registration |
| `HeapTracked.RegisteredWhileAlive` | src/node.rs:106-117 | over any run a node registered through `try_register_in` has an entry in its registry, as long as that exists, exactly while it is alive, always under the same id, unless that id is removed explicitly while it is alive |
| `HeapTracked.FreeKeepsNames` | src/registry.rs:112-133 | a run that removes only dead entries changes no value, parent or link, keeps every id of every node that is alive, reissues no id and ends no registration |
| `HeapTracked.NoRemovalKeepsNames` | src/registry.rs:17-20 | so does any run without explicit removals |
| `HeapTracked.RegistersKeepsNames` | src/history.rs:166-187 | the same for a run that only clones and drops handles and registers nodes, which is what insertions into a graph do |
| `HeapExamples.ParentOutlivesHandle` | src/node.rs:27-28 | a concrete run in which a parent stays alive after its last handle is dropped, because its child is held |
| `HeapExamples.RefusedForEver` | src/node.rs:136-143 | a concrete run after which a node is refused by an existing registry although the only registry it was ever registered in is gone |
| `HeapObject.Heap.constructor` | src/node.rs:51-78 | the empty heap satisfies the invariant |
| `HeapObject.Heap.WithParents` | src/node.rs:63-77 | updates the heap as the creation step of a run does |
| `HeapObject.Heap.Allocate` | src/node.rs:64-73 | the allocation, before the parents know of it |
| `HeapObject.Heap.RegisterEdges` | src/node.rs:372-376 | the loop appends one weak edge per parent, in parent order |
| `HeapObject.Heap.PushEdge` | src/node.rs:373-375 | one round of that loop |
| `HeapObject.Heap.Clone` | src/node.rs:41-43 | one more handle, one more count, as the step of a run |
| `HeapObject.Heap.Upgrade` | src/node.rs:189-191 | succeeds exactly if the node the reference was made from is alive, and returns a handle to that node; it is the step of a run |
| `HeapObject.Heap.DropWeakRef` | src/node.rs:183-185 | gives up one weak reference and frees the address with the last one, as the step of a run |
| `HeapObject.Heap.Downgrade` | src/node.rs:97-99 | one more weak reference, to this very node, as the step of a run |
| `HeapObject.Heap.CloneWeakRef` | src/node.rs:183-185 | one more weak reference to the same allocation, as the step of a run |
| `HeapObject.Heap.Drop` | src/node.rs:161-178 | the recursive drop ends and does exactly what the cascade of the runs does |
| `HeapObject.Heap.UnlinkAndKill` | src/node.rs:161-178 | the link is cleared and the entry removed before the node leaves its allocation |
| `HeapObject.Heap.Unlink` | src/node.rs:166-176 | takes the link and removes the node's entry from its registry if both still exist |
| `HeapObject.Heap.DropIncoming` | src/node.rs:222 | dropping the incoming edges one by one is dropping the list of their references |
| `HeapObject.Heap.DropOutgoing` | src/node.rs:227 | the same for the weak outgoing edges |
| `HeapObject.Heap.AllOutgoing` | src/node.rs:346-357 | prunes in place and returns exactly the edges to live children, each once, in order of creation; it is the step of a run |
| `HeapObject.Heap.GetId` | src/registry.rs:75-77 | finds an id exactly if this node is registered, and then its own |
| `HeapObject.Heap.NewRegistry` | src/registry.rs:32-37 | a new registry without entries, as the step of a run |
| `HeapObject.Heap.AddNode` | src/registry.rs:58-70 | returns the id under which the node is entered and updates both maps as the step of a run does |
| `HeapObject.Heap.TryRegisterIn` | src/node.rs:109-143 | succeeds exactly if the node is not linked or linked to this registry, and returns the id under which it is entered; updates link and both maps as the step of a run does |
| `HeapObject.Heap.RemoveNode` | src/registry.rs:156-162 | removes the entry from both maps and nothing else, as the step of a run |
| `HeapObject.Heap.FreeNodeIds` | src/registry.rs:112-133 | exactly the entries of dead nodes go away; the registry stays open with the same next id, registrations and other registries are untouched, and the number of entries left is returned; it is a run of removals of dead entries, so it keeps all names |
| `HeapObject.Heap.FreeOne` | src/registry.rs:125-130 | removing one dead entry changes nothing but this entry |
| `HeapObject.Heap.DeadIds` | src/registry.rs:113-122 | collects exactly the ids of dead nodes |
| `HeapObject.Heap.CopyRegistry` | src/registry.rs:22 | `clone` adds a registry with the same ids for the same nodes, dead ones included, and changes nothing else but weak counters; it is a run, so it keeps all names |
| `HeapObject.Heap.DropRegistry` | src/registry.rs:22-28 | dropping a registry removes its entries, changes no node and no other registry, and is a run |
| `History.GetNodeIdExact` | src/history.rs:98-101 | a live node is known under an id exactly if the graph holds that node under that id |
| `History.SourceExact` | src/history.rs:131-152 | an edge id has source `u` exactly if its target is in the graph and the indexed parent is the graph's node `u`; an edge is valid exactly if its source is defined, and then its target is the one it names |
| `History.GetEdgeExact` | src/history.rs:131-135 | gives exactly the indexed parent edge of the target, and only if both ends are in the graph; its value is the one the node was created with at that position |
| `History.IncomingEdgesExact` | src/history.rs:70-79 | lists exactly the valid edges with this target, each once, in the order of the parents |
| `History.ParentsExact` | src/history.rs:82-85 | `parents` is the sequence of parents the node was created with, restricted to those in the graph |
| `History.EdgesListedOnce` | src/petgraph.rs:36-62 | going through all nodes lists every edge of the graph exactly once, node by node and in parent order |
| `History.OutgoingEdgesExact` | src/history.rs:59-67 | lists exactly the edges whose source is this node, each once |
| `History.OutgoingInOrder` | src/history.rs:59-91 | the outgoing edges are listed in the order in which they were created, and `children` is the sequence of their targets |
| `History.ParentChildConverse` | src/history.rs:82-91 | `parents` and `children` are converse relations, and source and target of a listed edge are always defined |
| `History.GraphsAgree` | src/registry.rs:17-20 | two graphs that hold the same node share one registry and have the same id for it |
| `History.GraphStable` | src/history.rs:23-28 | no operation of the rest of the program damages a graph that keeps its handles, unless one of its ids or its registry is removed |
| `History.GraphStableRun` | src/history.rs:23-28 | the same over any run |
| `History.NamesKeepGraph` | src/history.rs:23-28 | a graph stays intact through anything that keeps names, creates no node and leaves it its handles, such as `free_node_ids` |
| `History.RegistersSpares` | src/history.rs:23-28 | and so through a run that only registers nodes |
| `HistoryObject.HistoryGraph.constructor` | src/history.rs:37-39 | an empty graph over an existing registry is valid |
| `HistoryObject.HistoryGraph.GetNodeId` | src/history.rs:98-101 | finds the id exactly of the nodes in the graph |
| `HistoryObject.HistoryGraph.InsertNode` | src/history.rs:166-174 | fails exactly if the node is not in the graph and linked to a different registry, and then only the handle is dropped; otherwise the graph gains exactly this node, and no other node gets a link; in both cases it is a run that only registers nodes, all ids and registrations are kept, and the graph is valid |
| `HistoryObject.HistoryGraph.InsertAncestors` | src/history.rs:180-187 | for every valid graph: adds exactly the node and those ancestors that are reached without passing through a node of the graph, and fails exactly if one of these is not in the graph and linked to a different registry; in both cases the recursion ends, it was a run that only registers nodes, the graph is valid with a handle for each node, all ids and registrations are kept, and a graph closed under ancestors is still closed |
| `HistoryObject.HistoryGraph.InsertBody` | src/history.rs:181-186 | the same for the body, before its argument is dropped: nothing dies, new links and entries belong to nodes of the graph, and nothing else changes |
| `HistoryObject.FreshMeanwhile` | src/history.rs:181-185 | nodes added through one parent make no difference to what is added through the next |
| `HistoryObject.ClosedInsert` | src/history.rs:176-187 | on a graph closed under ancestors: exactly the ancestors are added, the graph stays closed, and it fails exactly if some ancestor not in the graph is linked to a different registry |
| `HistoryExamples.GrandparentLeftOut` | src/history.rs:181-185 | a concrete run with three nodes: inserting the youngest with its ancestors into a graph that holds its parent alone leaves out the grandparent |
| `HistoryObject.HistoryGraph.InsertParents` | src/history.rs:181-185 | the loop adds exactly what is reached through the parents that are not in the graph, or fails exactly as the whole insertion does |
| `HistoryObject.OtherGraphSpared` | src/history.rs:166-187 | while nodes are inserted into one graph, any other graph on the heap stays intact and keeps its handles |
| `HistoryObject.HistoryGraph.LetGo` | src/history.rs:23-28 | dropping a graph that was made from nodes already alive kills nothing and restores all handles |
| `AllAncestors.Walk` | src/node.rs:146-158 | yields the longest repeat-free prefix of the breadth-first expansion: self first, only ancestors, no repeats |
| `AllAncestors.ExpansionMembers` | src/node.rs:146-158 | the expansion without any check for repeats meets exactly the ancestors |
| `AllAncestors.LayerByLayer` | src/node.rs:146-158 | the expansion is breadth first: a whole layer comes before the parents of that layer, in order |
| `AllAncestors.CompleteIff` | src/node.rs:152-154 | all ancestors are reported exactly if in the expansion no first visit comes after a repeated one |
| `AllAncestors.NotAlwaysComplete` | src/node.rs:152-154 | a node with parents 0, 0, 1 for which ancestor 1 is not reported |
| `Deserialization.DeserializeNode` | src/serialization.rs:217-242 | the recursion ends on every table; if it succeeds, the id and everything it needs are built once, after their parents |
| `Deserialization.DeserializeParents` | src/serialization.rs:225-229 | the loop over the parents builds exactly the missing ones |
| `Deserialization.DeserializeNodes` | src/serialization.rs:212-249 | succeeds if and only if the table is closed under parents and has no cycle; then every id is built exactly once, with the value, parents and edge values of the table |
| `Deserialization.BuiltAcyclic` | src/serialization.rs:217-242 | a table that could be built has no cycle |
| `Serialization.GetOrInsert` | src/registry.rs:81-87 | the node has an id afterwards, ids already given are kept, and a new node takes one new id |
| `Serialization.NameAll` | src/serialization.rs:162-167 | names all reported ancestors, with one new id for each that had none, and collects exactly their ids |
| `Serialization.VisitGraph` | src/serialization.rs:160-168 | the loop over the graph's nodes names and collects everything the walks report |
| `Serialization.WritableIff` | src/serialization.rs:96-105 | the enlarged registry can be written exactly under the condition used for the graph |
| `Serialization.WriteGraph` | src/serialization.rs:153-177 | succeeds exactly if all ids resolve, all entries are alive and all parents of named nodes are named; then writes exactly the reported nodes |
| `Serialization.ReadGraph` | src/serialization.rs:181-190 | succeeds exactly if the table is closed under parents, acyclic and contains the graph's ids, which is the first assertion; the second and the third one, also evaluated, never fail; afterwards an entry of the registry is alive exactly if some node of the graph has it among its ancestors |
| `Serialization.AliveIffNeeded` | src/serialization.rs:184-189 | the liveness of the entries after `retain`, as a condition on the table |
| `Serialization.FromNodes` | src/serialization.rs:112-120 | the rebuilt registry names exactly the rebuilt nodes, its maps are inverse to each other, and it continues the numbering of the table |
| `Serialization.InsertKept` | src/serialization.rs:186-189 | each kept node is inserted under the id it already has |
| `Serialization.VisitedClosed` | src/serialization.rs:160-168 | for an ancestor-closed graph the walks together report exactly its nodes, although a single walk may end early |
| `Serialization.ClosedWritable` | src/serialization.rs:153-177 | an ancestor-closed graph over a live, parent-closed registry can be written |
| `Serialization.WrittenClosed` | src/serialization.rs:170-176 | what is written has exactly one entry for each id of the graph |
| `Serialization.ClosedReadable` | src/serialization.rs:181-190 | and it can be read back |
| `Serialization.GraphRoundTrip` | src/serialization.rs:153-190 | writing and reading an ancestor-closed graph keeps node ids, values, and edges with their ids and values; different ids are different nodes; every registry entry is alive while the graph is held |
| `Serialization.ReportedRoundTrip` | src/serialization.rs:153-190 | writing and reading any graph of which all ancestors were reported keeps its ids; the registry names exactly the ancestors, under the ids they had or were given, with the same values, parents and edge values, and all of them are alive |
| `Serialization.ReadableIff` | src/serialization.rs:153-190 | a written graph can be read back exactly if the walks reported every ancestor |
| `Serialization.WrittenNotReadable` | src/serialization.rs:153-190 | a graph that can be written but not read back |
| `Serialization.DeadEntryBlocks` | src/serialization.rs:54-72 | a closed graph that cannot be written because of a dead entry that has nothing to do with it |
| `Serialization.OrphanEntryBlocks` | src/serialization.rs:54-72 | a closed graph that cannot be written because an unrelated entry has a parent that is not registered |
| `Serialization.RelRcRoundTrip` | src/serialization.rs:127-148 | the ancestors of the node read back are an isomorphic copy: same values, parent order and edge values, sharing kept, nothing duplicated |
| `RelRcSerialization.ViewOk` | src/registry.rs:23-28 | every registry of the heap is a well-formed registry for the serializer |
| `RelRcSerialization.ViewLookup` | src/registry.rs:75-77 | looking up by address in the heap is looking up by identity for the serializer |
| `RelRcSerialization.Inserted` | src/serialization.rs:135-139 | inserting a node and its ancestors into an empty graph gives exactly the ancestor graph that is then written, and the registry can then be written exactly if every entry was alive and every parent of an entry registered or an ancestor of the node |
| `RelRcSerialization.ClosedWritableIff` | src/serialization.rs:153-177 | a closed graph can be written exactly if its registry can |
| `RelRcSerialization.WriteRelRc` | src/serialization.rs:127-141 | succeeds exactly if no ancestor is linked to another registry and the registry is sound; in any case the heap is valid and restored, with all handles, ids and registrations as before and the temporary graph dropped; if no ancestor is linked elsewhere then all ancestors are linked to the registry afterwards, and no other node has a new link |
| `RelRcSerialization.ReadRelRc` | src/serialization.rs:145-148 | reading what was written always succeeds and gives an isomorphic copy of the ancestor graph |
| `RelRcSerialization.LinkedElsewhere` | src/serialization.rs:135-136 | after that the node can be written with this registry only: any other one makes `to_serialized` panic |
| `RelRcSerialization.SerializeRoundTrip` | src/serialization.rs:127-148 | on the heap: writing and reading works exactly if no ancestor is linked to another registry and the registry is sound, and then gives an isomorphic copy; the heap is valid and restored on every outcome; afterwards no other registry will do for this node |
| `HeapBuild.Realize` | src/serialization.rs:217-242 | new nodes listed in order of creation are created on the heap, each with clones of its parents' handles, at whatever addresses the allocator returns: the log is then that list, there is one new handle for each new node, every old node is where it was, and it was a run |
| `HeapBuild.OldRegStays` | src/serialization.rs:186-189 | a registry from before loses no entry when handles made since then are dropped |
| `HeapBuild.IsHeldThrough` | src/serialization.rs:145-148 | if only one handle is left of the new ones, exactly the old live nodes and the ancestors of that node are alive |
| `HeapBuild.RebuildFrom` | src/serialization.rs:112-120 | a registry naming given live nodes by given ids |
| `HeapBuild.RegisterAll` | src/serialization.rs:186-189 | registering nodes that are not linked elsewhere links each of them, and no other node |
| `HeapBuild.DropAll` | src/serialization.rs:145-148 | dropping handles one by one takes exactly these handles, leaves what is alive as it was, and takes from registries exactly the entries of nodes that died linked to them |
| `RelRcReading.ReadOnHeap` | src/serialization.rs:145-190 | `RelRc::from_serialized` on the heap: succeeds exactly if the graph can be read and contains the id; it is then a run, the returned handle is the only new one, what is alive was alive before or is held through it, the temporary registry is gone, of the new nodes exactly those in the graph are linked to it and the others to nothing, and the links of old nodes and all old registries are as before |
| `RelRcReading.DropOthers` | src/serialization.rs:186-187 | `retain`: after it the new handles are exactly those of the nodes of the graph |
| `RelRcReading.Chosen` | src/serialization.rs:186-187 | the addresses of exactly the nodes of the graph |
| `RelRcReading.RefusedIffInGraph` | src/serialization.rs:186-189 | after reading, a rebuilt node is refused by another registry exactly if it is in the graph, and can be written with another one exactly if none of its ancestors is |
| `RelRcReading.WriteAfterRead` | src/serialization.rs:127-148 | the node that was read back can never be written again, with any registry from before |
| `PostOrder.PushNew` | src/detached.rs:228-232 | the loop pushes exactly the visitable successors not marked before, each once, in order |
| `PostOrder.PostOrderForEach` | src/detached.rs:211-239 | on an acyclic graph: no lookup fails exactly if every reachable node is known; then every reachable node is called exactly once with the start last, and the calls are in post-order exactly if no node marks two successors of which the later listed one reaches the earlier listed one |
| `DepthFirst.PostOrderIff` | src/detached.rs:211-239 | the walk is a post-order exactly if at every node that an ordinary depth-first search (later listed successors first) enters, each successor that a later listed one reaches is finished already; it then makes its calls in exactly the order in which that search finishes the nodes |
| `DepthFirst.CrossFreeFrom` | src/detached.rs:211-239 | in particular if no later listed successor of a reachable node reaches an earlier listed one |
| `DepthFirst.EnterSearch` | src/detached.rs:226-233 | entering a node continues the search if all its marked successors are finished |
| `PostOrder.ReachedEarlier` | src/detached.rs:211-239 | in post-order a node comes after everything it reaches |
| `PostOrder.NotAlwaysPostOrder` | src/detached.rs:229 | for any three nodes where the third lists the first and the second, and the second lists the first, the second is called before the first |
| `Detached.HashGrow` | src/node.rs:36-40 | creating more nodes never changes the hash of a node |
| `Detached.GoodHashExists` | src/detached.rs:164-175 | an injective hash of value and incoming pairs that is never zero exists, for numbers as values |
| `Detached.ContentsClosed` | src/detached.rs:164-191 | the contents of a process by hash: keys are the hashes of the entries, and parents are present |
| `Detached.AncestorsUpto` | src/detached.rs:193-209 | returns, for exactly the hashes on upward paths that avoid `detach_from`, one node with that hash |
| `Detached.DetachNode` | src/detached.rs:96-107 | the detached object is the node's hash with exactly the contents on upward paths that avoid `detach_from` |
| `Detached.RequiredExact` | src/detached.rs:134-140 | the required hashes are exactly the parents of entries that lie in `detach_from`, so `attaches_to` holds for anything that covers those |
| `Attach.Known` | src/detached.rs:53-54 | the map of known nodes: exactly their hashes, each leading to the last of the given nodes with that hash |
| `Attach.Build` | src/detached.rs:66-80 | building in the order of the calls fails exactly if some parent that is not known comes later; otherwise one node per call, with the content asked for, known parents reused |
| `Attach.AttachNode` | src/detached.rs:45-91 | succeeds exactly under `AttachOk`; the node returned has the hash of the object; if that hash is known it is the last given node with it and nothing is created, otherwise exactly one node is created for each hash reached without entering a known one, and known nodes are reused |
| `Attach.AttachesToComplete` | src/detached.rs:147-150 | if `attaches_to` holds then no entry is missing |
| `Attach.AttachOkIff` | src/detached.rs:45-91 | the exact condition for success in terms of the table: the node is known, or nothing is missing and the parents are ordered as the depth-first search needs it |
| `Attach.CrossFreeAttaches` | src/detached.rs:45-91 | if `attaches_to` holds and no later listed parent has an earlier listed one among its ancestors then attaching succeeds |
| `Attach.AttachMayPanic` | src/detached.rs:66-80 | a node that requires nothing when detached and still cannot be attached |
| `Attach.DetachSame` | src/detached.rs:96-107 | equal hashes give equal detached objects, in whichever process the nodes live |
| `Attach.DetachAttachDetach` | src/detached.rs:291-296 | detaching, attaching elsewhere and detaching again from the same set gives an equal object |
| `AttachHeap.AllAncestors` | src/detached.rs:62-90 | every node that `attach` creates is an ancestor of the node it returns |
| `AttachHeap.AttachOnHeap` | src/detached.rs:45-91 | `attach` on the heap: it is a run, the returned handle is the only new one, to the last given node with the hash of the object if there is one and else to a new node with that hash; one node is created for each hash reached without entering a known one, known nodes are reused, and every new node is alive and held through the handle; registries and links do not change and new nodes have no link |
| `Protocol.ArrivesSame` | src/detached/mpi/msg_types.rs:115-123 | every message arrives as it was sent, except that a request for hash zero arrives as `Done` |
| `Protocol.InitialInv` | src/detached/mpi.rs:135-173 | the invariant of the protocol holds at the start |
| `Protocol.SenderKeeps` | src/detached/mpi.rs:150-161 | every step of the sender keeps the invariant |
| `Protocol.CheckKeeps` | src/detached/mpi.rs:174-183 | so does every decision at the top of the receiver's loop |
| `Protocol.ReadNext` | src/detached/mpi.rs:236-263 | the next message of an object is always of the kind the receiver waits for, and it assembles what was sent |
| `Protocol.AskedKnown` | src/detached/mpi.rs:156-160 | a hash that is asked for is in the sender's data, has not been sent, and is reachable |
| `Protocol.RunInv` | src/detached/mpi.rs:135-200 | the invariant holds in every reachable state: one object in flight, its messages in the queues in order |
| `Protocol.RunSafe` | src/detached/mpi.rs:135-272 | in every reachable state no process has panicked, each object was sent at most once, only wanted objects were sent, and every request pending is for data the sender has |
| `Protocol.NeverStuck` | src/detached/mpi.rs:150-197 | in every reachable state some process can make a step, even if every send blocks until the other side waits for a message with that tag, or both have ended with all queues empty |
| `Protocol.CanTransfer` | src/detached/mpi.rs:206-263 | while an object is on its way, the receiver can read or waits for exactly what the sender sends next |
| `Protocol.RunsEnd` | src/detached/mpi.rs:150-197 | no run has more steps than the number of objects times a constant given by the largest number of parents |
| `Protocol.SomeBound` | src/detached/mpi.rs:230-232 | there always is such a largest number |
| `Protocol.FinishedExact` | src/detached/mpi.rs:174-197 | when both have ended, the receiver has exactly the entries reached without entering a known hash, with the sender's contents, all required hashes are known, and exactly those entries were sent, each once |
| `Protocol.DetachSendable` | src/detached/mpi.rs:141-147 | what the sender detaches from nothing contains the node and all its ancestors |
| `Protocol.RefinesDetach` | src/detached/mpi.rs:135-200 | whatever the schedule, if the node is not known to the receiver then the object it ends with equals what `detach` from its known hashes gives directly |
| `Protocol.ReceivedAttaches` | src/detached/mpi.rs:199 | attaching the received object never fails for want of an entry, and succeeds if the parents are listed without crossings |
| `Protocol.ZeroHashStops` | src/detached/mpi/msg_types.rs:115-123 | if a parent of the node that is sent had hash zero, there would be a run after which the sender has ended and the receiver waits for ever |
| `Protocol.Deliver` | src/detached/mpi.rs:143-195 | the first object can always be delivered, whatever the hashes are |

## Left out

- `src/detached/mpi/send_recv.rs`: foreign MPI calls, futures and wakers. Receiving with a tag returns the oldest message sent with that tag. Sends put the message into the queue; that they may block until the receiver waits for them is covered by `Protocol.NeverStuck`, running out of a buffer of limited size is not.
- `SlotMap` and `SecondaryMap` internals: a key is never issued twice, `map` and `retain` keep keys.
- `src/petgraph.rs` and `src/petgraph/edge_ref.rs`: thin wrappers around the graph view.
- `src/resolver.rs`: a trait definition without an algorithm.
- serde derives, snapshots, `Debug`, conversions, `map_value` and `map_nodes`.
- The computation of hashes: `hash_id` is not part of this model; any injective function without zero will do.
- Clones of `InnerData` made by the user, raw `Rc<InnerData>` handles, node values that contain `RelRc`, and drops while the user holds a borrow of a registry.
- The state after a panic, except where a contract describes it (insertions and `RelRc::to_serialized`, whose local handles are dropped).
- Registries are named by numbers that are never reused, so a dropped registry cannot be confused with a later one at the same address; `Weak` keeps that address from being reused in the original.
- Dropping a registry that still has entries is the removal of each entry followed by the drop of the empty registry (`HeapObject.Heap.DropRegistry`).
- The clone of a registry made while writing a graph is a value of the serializer and not an object on the heap.
- HeapObject.Heap.AllOutgoing: the counters of the upgraded targets are adjusted after the scan of the list instead of during it; nothing else can run in between.
- Attach.AttachNode: the calls of `post_order_for_each` are collected first and the nodes created afterwards, in the same order.

/**
 Which control owns which popup, which popups can reach a cycle of the combined
 ancestry and ownership graph, which ancestors count as focused, and the modal
 each owned popup belongs to.
 */
module PopupOwnership {
  import opened Wrappers
  import opened AncestorChains
  import opened CycleSearch

  type NodeId = string
  datatype Backend = BackendNode(number: int)

  /** The roles that the search tells apart; every other role keeps its name. */
  datatype Role = Dialog | AlertDialog | Listbox | Menu | Tree | Grid | Other(name: string)

  /** One accessibility node, with the properties that the ownership search reads. */
  datatype AxNode = AxNode(
    parentId: Option<NodeId>,
    backend: Option<Backend>,
    ignored: bool,
    role: Role,
    modal: bool,
    expanded: bool,
    hasPopup: Option<Role>,
    controls: seq<Option<Backend>>)

  /** The nodes by id, and the order in which the protocol lists them. */
  datatype AxTree = AxTree(order: seq<NodeId>, byId: map<NodeId, AxNode>) {
    ghost predicate Listed() {
      forall id :: id in order <==> id in byId
    }
  }

  /** An owner node, or `None` once two different nodes claimed the popup. */
  type Owners = map<Backend, Option<NodeId>>

  predicate IsPopupRole(r: Role) {
    !r.Other?
  }

  /** The node that a backend id names: the last listed one that is not ignored. */
  function ByBackend(tree: AxTree, order: seq<NodeId>): (r: map<Backend, NodeId>)
    ensures forall b :: b in r ==> r[b] in tree.byId && tree.byId[r[b]].backend == Some(b) && !tree.byId[r[b]].ignored
  {
    if order == [] then map[]
    else
      var last := order[|order| - 1];
      var rest := ByBackend(tree, order[..|order| - 1]);
      if last in tree.byId && !tree.byId[last].ignored && tree.byId[last].backend.Some? then
        rest[tree.byId[last].backend.value := last]
      else rest
  }

  function Parents(tree: AxTree): map<NodeId, NodeId> {
    map id | id in tree.byId && tree.byId[id].parentId.Some? && tree.byId[id].parentId.value in tree.byId ::
      tree.byId[id].parentId.value
  }

  predicate IsModal(n: AxNode) {
    (n.role.Dialog? || n.role.AlertDialog?) && n.modal
  }

  function ModalStops(tree: AxTree): map<NodeId, Option<Backend>> {
    map id | id in tree.byId && IsModal(tree.byId[id]) :: tree.byId[id].backend
  }

  predicate Owned(owners: Owners, b: Option<Backend>) {
    b.Some? && b.value in owners && owners[b.value].Some?
  }

  function PopupStops(tree: AxTree, owners: Owners): map<NodeId, Backend> {
    map id | id in tree.byId && Owned(owners, tree.byId[id].backend) :: tree.byId[id].backend.value
  }

  // ---------------------------------------------------------------- owners

  /** `owner` is an expanded control that lists `target`, a popup of the kind it announces. */
  predicate Claims(tree: AxTree, dom: set<Backend>, controlRoles: set<Role>, owner: NodeId, target: Backend) {
    && owner in tree.byId
    && var node := tree.byId[owner];
    && IsExpandedControl(node, dom, controlRoles)
    && Some(target) in node.controls
    && Accepted(tree, dom, node, target)
  }

  predicate IsExpandedControl(node: AxNode, dom: set<Backend>, controlRoles: set<Role>) {
    !node.ignored && node.backend.Some? && node.backend.value in dom && node.role in controlRoles && node.expanded
  }

  /** The target is a popup of the announced role, not modal, and present in the document. */
  predicate Accepted(tree: AxTree, dom: set<Backend>, owner: AxNode, target: Backend) {
    && target in ByBackend(tree, tree.order) && target in dom
    && var popup := tree.byId[ByBackend(tree, tree.order)[target]];
    && IsPopupRole(popup.role) && owner.hasPopup == Some(popup.role) && !popup.modal
  }

  /** The ownership map says, for each claimed popup, whether one node or several claim it. */
  ghost predicate OwnersMatch(log: seq<(NodeId, Backend)>, owners: Owners) {
    && (forall e :: e in log ==> e.1 in owners)
    && forall t :: t in owners ==>
         match owners[t]
         case Some(o) => (o, t) in log && forall e :: e in log && e.1 == t ==> e.0 == o
         case None => exists o, o' :: o != o' && (o, t) in log && (o', t) in log
  }

  /** The map keeps its keys in the order of their first insertion. */
  ghost predicate KeysMatch(keys: seq<Backend>, owners: Owners) {
    forall k :: k in keys <==> k in owners
  }

  method AddClaim(ghost log: seq<(NodeId, Backend)>, keys: seq<Backend>, owners: Owners, owner: NodeId, target: Backend)
    returns (keys': seq<Backend>, owners': Owners)
    requires OwnersMatch(log, owners) && KeysMatch(keys, owners)
    ensures OwnersMatch(log + [(owner, target)], owners') && KeysMatch(keys', owners')
  {
    keys', owners' := keys, owners;
    ghost var log' := log + [(owner, target)];
    assert forall e :: e in log' <==> e in log || e == (owner, target);
    if target !in owners {
      owners' := owners[target := Some(owner)];
      keys' := keys + [target];
    } else if owners[target] != Some(owner) {
      owners' := owners[target := None];
      if owners[target].Some? {
        assert (owners[target].value, target) in log' && (owner, target) in log';
      }
    }
  }

  /** The log holds the claims of the first `i` listed nodes and no others. */
  ghost predicate Logged(tree: AxTree, dom: set<Backend>, controlRoles: set<Role>,
    i: nat, log: seq<(NodeId, Backend)>) {
    && (forall e :: e in log ==> Claims(tree, dom, controlRoles, e.0, e.1))
    && forall j, t :: 0 <= j < i <= |tree.order| && Claims(tree, dom, controlRoles, tree.order[j], t) ==>
         (tree.order[j], t) in log
  }

  /** The claims of one node, in the order of its related nodes. */
  method AddOwner(tree: AxTree, dom: set<Backend>, controlRoles: set<Role>, i: nat,
                  ghost log: seq<(NodeId, Backend)>, keys: seq<Backend>, owners: Owners)
    returns (ghost log': seq<(NodeId, Backend)>, keys': seq<Backend>, owners': Owners)
    requires i < |tree.order| && tree.Listed()
    requires OwnersMatch(log, owners) && KeysMatch(keys, owners) && Logged(tree, dom, controlRoles, i, log)
    ensures OwnersMatch(log', owners') && KeysMatch(keys', owners') && Logged(tree, dom, controlRoles, i + 1, log')
  {
    log', keys', owners' := log, keys, owners;
    var owner := tree.order[i];
    if IsExpandedControl(tree.byId[owner], dom, controlRoles) {
      log', keys', owners' := AddControls(tree, dom, controlRoles, owner, log, keys, owners);
      ClaimsOfExact(tree, dom, owner, |tree.byId[owner].controls|);
    }
  }

  /** The accepted claims among the first `c` related nodes of an owner. */
  ghost function ClaimsOf(tree: AxTree, dom: set<Backend>, owner: NodeId, c: nat): seq<(NodeId, Backend)>
    requires owner in tree.byId && c <= |tree.byId[owner].controls|
  {
    if c == 0 then []
    else
      var target := tree.byId[owner].controls[c - 1];
      ClaimsOf(tree, dom, owner, c - 1)
      + if target.Some? && Accepted(tree, dom, tree.byId[owner], target.value) then [(owner, target.value)] else []
  }

  lemma {:induction false} ClaimsOfExact(tree: AxTree, dom: set<Backend>, owner: NodeId, c: nat)
    requires owner in tree.byId && c <= |tree.byId[owner].controls|
    ensures forall e :: e in ClaimsOf(tree, dom, owner, c) <==>
              e.0 == owner && Some(e.1) in tree.byId[owner].controls[..c] && Accepted(tree, dom, tree.byId[owner], e.1)
  {
    if c > 0 {
      ClaimsOfExact(tree, dom, owner, c - 1);
      assert tree.byId[owner].controls[..c] == tree.byId[owner].controls[..c - 1] + [tree.byId[owner].controls[c - 1]];
    }
  }

  /** The claims of the first `c` related nodes, logged after the earlier ones. */
  ghost function LogOf(tree: AxTree, dom: set<Backend>, owner: NodeId, c: nat, log: seq<(NodeId, Backend)>)
    : seq<(NodeId, Backend)>
    requires owner in tree.byId && c <= |tree.byId[owner].controls|
  {
    log + ClaimsOf(tree, dom, owner, c)
  }

  lemma LogStarts(tree: AxTree, dom: set<Backend>, owner: NodeId, log: seq<(NodeId, Backend)>)
    requires owner in tree.byId
    ensures LogOf(tree, dom, owner, 0, log) == log
  {
  }

  lemma LogGrows(tree: AxTree, dom: set<Backend>, owner: NodeId, c: nat, log: seq<(NodeId, Backend)>)
    requires owner in tree.byId && c < |tree.byId[owner].controls|
    ensures var target := tree.byId[owner].controls[c];
            LogOf(tree, dom, owner, c + 1, log)
            == if target.Some? && Accepted(tree, dom, tree.byId[owner], target.value) then
                 LogOf(tree, dom, owner, c, log) + [(owner, target.value)]
               else LogOf(tree, dom, owner, c, log)
  {
    hide Accepted;
    assert LogOf(tree, dom, owner, c + 1, log) == log + ClaimsOf(tree, dom, owner, c + 1);
  }

  method AddControls(tree: AxTree, dom: set<Backend>, controlRoles: set<Role>, owner: NodeId,
                     ghost log: seq<(NodeId, Backend)>, keys: seq<Backend>, owners: Owners)
    returns (ghost log': seq<(NodeId, Backend)>, keys': seq<Backend>, owners': Owners)
    requires owner in tree.byId && IsExpandedControl(tree.byId[owner], dom, controlRoles)
    requires OwnersMatch(log, owners) && KeysMatch(keys, owners)
    ensures OwnersMatch(log', owners') && KeysMatch(keys', owners')
    ensures log' == LogOf(tree, dom, owner, |tree.byId[owner].controls|, log)
  {
    var node := tree.byId[owner];
    log', keys', owners' := log, keys, owners;
    LogStarts(tree, dom, owner, log);
    hide OwnersMatch;
    hide KeysMatch;
    hide LogOf;
    hide ClaimsOf;
    hide Accepted;
    for c := 0 to |node.controls|
      invariant OwnersMatch(log', owners') && KeysMatch(keys', owners')
      invariant log' == LogOf(tree, dom, owner, c, log)
    {
      var target := node.controls[c];
      LogGrows(tree, dom, owner, c, log);
      if target.Some? && Accepted(tree, dom, node, target.value) {
        keys', owners' := AddClaim(log', keys', owners', owner, target.value);
        log' := log' + [(owner, target.value)];
      }
    }
  }

  /** A popup is in the map when someone claims it, with an owner exactly when a single node does. */
  ghost predicate OwnersExact(tree: AxTree, dom: set<Backend>, controlRoles: set<Role>, owners: Owners) {
    && (forall o, t :: Claims(tree, dom, controlRoles, o, t) ==> t in owners)
    && forall t :: t in owners ==>
         match owners[t]
         case Some(o) => Claims(tree, dom, controlRoles, o, t)
                         && forall o' :: Claims(tree, dom, controlRoles, o', t) ==> o' == o
         case None => exists o, o' :: o != o' && Claims(tree, dom, controlRoles, o, t)
                                      && Claims(tree, dom, controlRoles, o', t)
  }

  method CollectOwners(tree: AxTree, dom: set<Backend>, controlRoles: set<Role>)
    returns (keys: seq<Backend>, owners: Owners)
    requires tree.Listed()
    ensures OwnersExact(tree, dom, controlRoles, owners) && KeysMatch(keys, owners)
  {
    keys, owners := [], map[];
    ghost var log: seq<(NodeId, Backend)> := [];
    for i := 0 to |tree.order|
      invariant OwnersMatch(log, owners) && KeysMatch(keys, owners) && Logged(tree, dom, controlRoles, i, log)
    {
      log, keys, owners := AddOwner(tree, dom, controlRoles, i, log, keys, owners);
    }
    forall o, t | Claims(tree, dom, controlRoles, o, t)
      ensures (o, t) in log
    {
      var j :| 0 <= j < |tree.order| && tree.order[j] == o;
    }
  }

  // ------------------------------------------------------- ownership graph

  /** Every key names a popup node, and every recorded owner is a node. */
  ghost predicate OwnersPresent(tree: AxTree, owners: Owners)
  {
    forall b :: b in owners ==> b in ByBackend(tree, tree.order) && (owners[b].Some? ==> owners[b].value in tree.byId)
  }

  lemma ExactOwnersArePresent(tree: AxTree, dom: set<Backend>, controlRoles: set<Role>, owners: Owners)
    requires OwnersExact(tree, dom, controlRoles, owners)
    ensures OwnersPresent(tree, owners)
  {
    forall b | b in owners
      ensures b in ByBackend(tree, tree.order) && (owners[b].Some? ==> owners[b].value in tree.byId)
    {
      var o :| Claims(tree, dom, controlRoles, o, b) && (owners[b].Some? ==> o == owners[b].value);
    }
  }

  /** The modal dialog that physically contains a node (itself included), by the plain ancestor walk. */
  ghost function PhysicalModal(tree: AxTree, id: NodeId): Option<Option<Backend>>
  {
    FirstStop(Parents(tree), ModalStops(tree), id)
  }

  /** The nearest owned popup strictly above a node, by the plain ancestor walk. */
  ghost function BackendAbove(tree: AxTree, owners: Owners, id: NodeId): Option<Backend> {
    if id in Parents(tree) then FirstStop(Parents(tree), PopupStops(tree, owners), Parents(tree)[id]) else None
  }

  lemma BackendAboveIsOwned(tree: AxTree, owners: Owners, id: NodeId)
    requires BackendAbove(tree, owners, id).Some?
    ensures Owned(owners, BackendAbove(tree, owners, id))
  {
    var start := Parents(tree)[id];
    FirstStopIsNearest(Parents(tree), PopupStops(tree, owners), start);
    var k: nat :| StopsAt(Parents(tree), PopupStops(tree, owners), start, k);
  }

  /** The two edges of a popup: the owned popup above its owner and the one above itself. */
  function Edges(first: Option<Backend>, second: Option<Backend>): seq<Backend> {
    (if first.Some? then [first.value] else []) + (if second.Some? && second != first then [second.value] else [])
  }

  ghost function EdgesFrom(tree: AxTree, owners: Owners, b: Backend): (r: seq<Backend>)
    requires OwnersPresent(tree, owners) && b in owners
    ensures forall s :: s in r ==> s in owners
  {
    if owners[b].Some? then
      var first, second :=
        BackendAbove(tree, owners, owners[b].value), BackendAbove(tree, owners, ByBackend(tree, tree.order)[b]);
      assert first.Some? ==> Owned(owners, first) by {
        if first.Some? { BackendAboveIsOwned(tree, owners, owners[b].value); }
      }
      assert second.Some? ==> Owned(owners, second) by {
        if second.Some? { BackendAboveIsOwned(tree, owners, ByBackend(tree, tree.order)[b]); }
      }
      Edges(first, second)
    else []
  }

  ghost function OwnershipGraph(tree: AxTree, owners: Owners): (g: Graph<Backend>)
    requires OwnersPresent(tree, owners)
    ensures ClosedGraph(g)
  {
    map b | b in owners :: EdgesFrom(tree, owners, b)
  }

  type ModalTable = AncestorTable<NodeId, Option<Backend>>
  type PopupTable = AncestorTable<NodeId, Backend>

  /** The memo tables start from the links and stops of this tree. */
  ghost predicate ModalTableFor(tree: AxTree, t: ModalTable)
    reads t
  {
    t.Valid() && t.parent == Parents(tree) && t.stops == ModalStops(tree)
  }

  ghost predicate PopupTableFor(tree: AxTree, owners: Owners, t: PopupTable)
    reads t
  {
    t.Valid() && t.parent == Parents(tree) && t.stops == PopupStops(tree, owners)
  }

  /** `popupParent(node)?.backendDOMNodeId`, through the memo table. */
  method LookUpBackendAbove(tree: AxTree, owners: Owners, nearest: PopupTable, id: NodeId)
    returns (above: Option<Backend>)
    requires PopupTableFor(tree, owners, nearest)
    modifies nearest
    ensures PopupTableFor(tree, owners, nearest)
    ensures above == BackendAbove(tree, owners, id)
  {
    var parents := Parents(tree);
    above := nearest.Nearest(if id in parents then Some(parents[id]) else None);
  }

  method BuildGraph(tree: AxTree, owners: Owners, keys: seq<Backend>, nearest: PopupTable)
    returns (graph: Graph<Backend>)
    requires OwnersPresent(tree, owners) && PopupTableFor(tree, owners, nearest)
    requires KeysMatch(keys, owners)
    modifies nearest
    ensures PopupTableFor(tree, owners, nearest)
    ensures graph == OwnershipGraph(tree, owners)
  {
    hide BackendAbove;
    hide PopupTableFor;
    graph := map[];
    for i := 0 to |keys|
      invariant PopupTableFor(tree, owners, nearest)
      invariant forall k :: 0 <= k < i ==> keys[k] in graph
      invariant graph.Keys <= owners.Keys
      invariant forall b :: b in graph ==> graph[b] == EdgesFrom(tree, owners, b)
    {
      var b := keys[i];
      if owners[b].Some? {
        var first := LookUpBackendAbove(tree, owners, nearest, owners[b].value);
        var second := LookUpBackendAbove(tree, owners, nearest, ByBackend(tree, tree.order)[b]);
        graph := graph[b := Edges(first, second)];
      } else {
        graph := graph[b := []];
      }
    }
    forall b | b in owners
      ensures b in graph
    {
      assert b in keys;
      var k :| 0 <= k < |keys| && keys[k] == b;
    }
  }

  // ---------------------------------------------------- modals of the popups

  /** From an owned popup to the owned popup above its owner. */
  ghost function OwnerLinks(tree: AxTree, owners: Owners): map<Backend, Backend>
  {
    map b | b in owners && owners[b].Some? && BackendAbove(tree, owners, owners[b].value).Some? ::
      BackendAbove(tree, owners, owners[b].value).value
  }

  /** Popups whose owner lies in a modal, with that modal. */
  ghost function OwnerModals(tree: AxTree, owners: Owners): map<Backend, Option<Backend>>
  {
    map b | b in owners && owners[b].Some? && PhysicalModal(tree, owners[b].value).Some? ::
      PhysicalModal(tree, owners[b].value).value
  }

  /** The first modal met by following owners upwards, without any table. */
  ghost function ModalOfPopup(tree: AxTree, owners: Owners, b: Backend): Option<Option<Backend>>
  {
    FirstStop(OwnerLinks(tree, owners), OwnerModals(tree, owners), b)
  }

  /** Entries of the modal table are unmarked owned popups and carry the plain answer. */
  ghost predicate ModalsSoFar(tree: AxTree, owners: Owners, cyclic: set<Backend>,
    modals: map<Backend, Option<Option<Backend>>>)
  {
    forall b :: b in modals ==>
      Owned(owners, Some(b)) && b !in cyclic && modals[b] == ModalOfPopup(tree, owners, b)
  }

  /** A step along the owner links is an edge of the searched graph. */
  lemma OwnerLinkIsEdge(tree: AxTree, owners: Owners, b: Backend)
    requires OwnersPresent(tree, owners) && b in OwnerLinks(tree, owners)
    ensures Edge(OwnershipGraph(tree, owners), b, OwnerLinks(tree, owners)[b])
  {
    assert OwnershipGraph(tree, owners)[b][0] == OwnerLinks(tree, owners)[b];
  }

  /** The chain walked so far: unmarked popups, each linked to the next, all with the answer of `current`. */
  ghost predicate Chain(links: map<Backend, Backend>, stops: map<Backend, Option<Backend>>, graph: Graph<Backend>,
                        cyclic: set<Backend>, path: seq<Backend>, current: Option<Backend>)
  {
    && (path != [] ==> Walk(graph, path))
    && (path != [] && current.Some? ==> Edge(graph, path[|path| - 1], current.value))
    && (forall b :: b in path ==> b !in cyclic)
    && forall b :: b in path ==>
         FirstStop(links, stops, b) == (if current.Some? then FirstStop(links, stops, current.value) else None)
  }

  lemma ExtendChain(links: map<Backend, Backend>, stops: map<Backend, Option<Backend>>, graph: Graph<Backend>,
                    cyclic: set<Backend>, path: seq<Backend>, b: Backend, next: Option<Backend>)
    requires Chain(links, stops, graph, cyclic, path, Some(b)) && b in graph && b !in cyclic && b !in stops
    requires next == if b in links then Some(links[b]) else None
    requires next.Some? ==> Edge(graph, b, next.value)
    ensures Chain(links, stops, graph, cyclic, path + [b], next)
  {
    FirstStopUnfolds(links, stops, b);
    WalkExtends(graph, path, b);
  }

  /** Every popup of the path has this answer. */
  ghost predicate Answered(links: map<Backend, Backend>, stops: map<Backend, Option<Backend>>,
                           path: seq<Backend>, result: Option<Option<Backend>>)
  {
    forall b :: b in path ==> result == FirstStop(links, stops, b)
  }

  lemma ChainAnswers(links: map<Backend, Backend>, stops: map<Backend, Option<Backend>>, graph: Graph<Backend>,
                     cyclic: set<Backend>, path: seq<Backend>, b: Backend)
    requires Chain(links, stops, graph, cyclic, path, Some(b)) && b in stops
    ensures Answered(links, stops, path + [b], Some(stops[b]))
  {
    FirstStopUnfolds(links, stops, b);
  }

  /** One step of the owner chain: the modal of the owner, or else the owned popup above it. */
  method StepUp(tree: AxTree, owners: Owners, physical: ModalTable, nearest: PopupTable, owner: NodeId)
    returns (modal: Option<Option<Backend>>, above: Option<Backend>)
    requires ModalTableFor(tree, physical) && PopupTableFor(tree, owners, nearest)
    requires physical as object != nearest as object
    modifies physical, nearest
    ensures ModalTableFor(tree, physical) && PopupTableFor(tree, owners, nearest)
    ensures modal == PhysicalModal(tree, owner)
    ensures modal.None? ==> above == BackendAbove(tree, owners, owner)
  {
    above := None;
    modal := physical.Nearest(Some(owner));
    if modal.None? {
      above := LookUpBackendAbove(tree, owners, nearest, owner);
    }
  }

  /** Walks the owner chain of one popup up to the first modal or remembered answer. */
  method FollowOwners(tree: AxTree, owners: Owners, cyclic: set<Backend>, physical: ModalTable, nearest: PopupTable,
                      id: Backend, modals: map<Backend, Option<Option<Backend>>>)
    returns (path: seq<Backend>, result: Option<Option<Backend>>)
    requires OwnersPresent(tree, owners) && id in owners
    requires ModalTableFor(tree, physical) && PopupTableFor(tree, owners, nearest)
    requires physical as object != nearest as object
    requires MarksExactly(OwnershipGraph(tree, owners), cyclic)
    requires ModalsSoFar(tree, owners, cyclic, modals)
    modifies physical, nearest
    ensures ModalTableFor(tree, physical) && PopupTableFor(tree, owners, nearest)
    ensures forall b :: b in path ==> Owned(owners, Some(b)) && b !in cyclic
    ensures Answered(OwnerLinks(tree, owners), OwnerModals(tree, owners), path, result)
    ensures Owned(owners, Some(id)) && id !in cyclic && id !in modals ==> id in path
  {
    hide ModalTableFor;
    hide PopupTableFor;
    hide OwnerLinks;
    hide OwnerModals;
    hide OwnershipGraph;
    hide OwnersPresent;
    hide PhysicalModal;
    hide BackendAbove;
    path, result := [], None;
    var current := Some(id);
    ghost var links, stops := OwnerLinks(tree, owners), OwnerModals(tree, owners);
    ghost var graph := OwnershipGraph(tree, owners);
    ghost var left := owners.Keys;
    ghost var answered := false;
    while current.Some? && Owned(owners, current) && current.value !in cyclic && current.value !in modals
      invariant ModalTableFor(tree, physical) && PopupTableFor(tree, owners, nearest)
      invariant !answered && result == None
      invariant Chain(links, stops, graph, cyclic, path, current)
      invariant if path == [] then current == Some(id) else path[0] == id && (current.Some? ==> Owned(owners, current))
      invariant forall b :: b in path ==> Owned(owners, Some(b))
      invariant forall b :: b in owners && b !in path ==> b in left
      decreases left
    {
      var b := current.value;
      OwnerFacts(tree, owners, b);
      if b in path {
        RevisitReachesCycle(graph, path, b);
        assert false;
      }
      left := left - {b};
      var above;
      result, above := StepUp(tree, owners, physical, nearest, owners[b].value);
      if result.Some? {
        answered := true;
        ChainAnswers(links, stops, graph, cyclic, path, b);
        path := path + [b];
        break;
      }
      current := above;
      OwnerStepKeepsChain(tree, owners, cyclic, path, b, current);
      path := path + [b];
    }
    if current.Some? && current.value in modals {
      result := modals[current.value];
    }
    if !answered && path != [] && current.Some? && current.value in cyclic {
      PrependEdge(graph, path[|path| - 1], current.value);
      assert false;
    }
  }

  lemma OwnerStepKeepsChain(tree: AxTree, owners: Owners, cyclic: set<Backend>, path: seq<Backend>,
                            b: Backend, next: Option<Backend>)
    requires OwnersPresent(tree, owners) && Owned(owners, Some(b)) && b !in cyclic && b !in OwnerModals(tree, owners)
    requires Chain(OwnerLinks(tree, owners), OwnerModals(tree, owners),
                   OwnershipGraph(tree, owners), cyclic, path, Some(b))
    requires next == BackendAbove(tree, owners, owners[b].value)
    ensures Chain(OwnerLinks(tree, owners), OwnerModals(tree, owners),
                  OwnershipGraph(tree, owners), cyclic, path + [b], next)
    ensures next.Some? ==> Owned(owners, next)
  {
    if next.Some? {
      BackendAboveIsOwned(tree, owners, owners[b].value);
      OwnerLinkIsEdge(tree, owners, b);
    }
    ExtendChain(OwnerLinks(tree, owners), OwnerModals(tree, owners),
                OwnershipGraph(tree, owners), cyclic, path, b, next);
  }

  /** A popup is a node of the graph, and a stop of its owner chain exactly when its owner lies in a modal. */
  lemma OwnerFacts(tree: AxTree, owners: Owners, b: Backend)
    requires OwnersPresent(tree, owners) && Owned(owners, Some(b))
    ensures b in OwnershipGraph(tree, owners)
    ensures var modal := PhysicalModal(tree, owners[b].value);
            if modal.Some? then b in OwnerModals(tree, owners) && OwnerModals(tree, owners)[b] == modal.value
            else b !in OwnerModals(tree, owners)
  {
  }

  lemma RevisitReachesCycle(graph: Graph<Backend>, path: seq<Backend>, b: Backend)
    requires path != [] && Walk(graph, path) && b in graph && b in path && Edge(graph, path[|path| - 1], b)
    ensures ReachesCycle(graph, path[0])
  {
    var p := path + [b];
    var i :| 0 <= i < |path| && path[i] == b;
    assert p[i] == p[|p| - 1];
    WalkExtends(graph, path, b);
  }

  method StoreAnswer(tree: AxTree, owners: Owners, cyclic: set<Backend>, path: seq<Backend>,
                     result: Option<Option<Backend>>, modals0: map<Backend, Option<Option<Backend>>>)
    returns (modals: map<Backend, Option<Option<Backend>>>)
    requires ModalsSoFar(tree, owners, cyclic, modals0)
    requires forall b :: b in path ==> Owned(owners, Some(b)) && b !in cyclic
    requires Answered(OwnerLinks(tree, owners), OwnerModals(tree, owners), path, result)
    ensures ModalsSoFar(tree, owners, cyclic, modals)
    ensures forall b :: b in modals <==> b in modals0 || b in path
  {
    modals := modals0;
    for k := 0 to |path|
      invariant ModalsSoFar(tree, owners, cyclic, modals)
      invariant forall b :: b in modals <==> b in modals0 || b in path[..k]
    {
      modals := modals[path[k] := result];
    }
    assert path[..|path|] == path;
  }

  /** One round of the loop: follow the owners of one popup and remember the answer for the whole path. */
  method ResolvePopup(tree: AxTree, owners: Owners, cyclic: set<Backend>, physical: ModalTable, nearest: PopupTable,
                      id: Backend, modals0: map<Backend, Option<Option<Backend>>>)
    returns (modals: map<Backend, Option<Option<Backend>>>)
    requires OwnersPresent(tree, owners) && id in owners
    requires ModalTableFor(tree, physical) && PopupTableFor(tree, owners, nearest)
    requires physical as object != nearest as object
    requires MarksExactly(OwnershipGraph(tree, owners), cyclic)
    requires ModalsSoFar(tree, owners, cyclic, modals0)
    modifies physical, nearest
    ensures ModalTableFor(tree, physical) && PopupTableFor(tree, owners, nearest)
    ensures ModalsSoFar(tree, owners, cyclic, modals) && modals0.Keys <= modals.Keys
    ensures Owned(owners, Some(id)) && id !in cyclic ==> id in modals
  {
    var path, result := FollowOwners(tree, owners, cyclic, physical, nearest, id, modals0);
    modals := StoreAnswer(tree, owners, cyclic, path, result, modals0);
  }

  /** Every unambiguous popup outside the marked set gets the modal of its plain owner chain; no other gets one. */
  method PopupModals(tree: AxTree, owners: Owners, keys: seq<Backend>, cyclic: set<Backend>,
                     physical: ModalTable, nearest: PopupTable)
    returns (modals: map<Backend, Option<Option<Backend>>>)
    requires OwnersPresent(tree, owners)
    requires KeysMatch(keys, owners)
    requires ModalTableFor(tree, physical) && PopupTableFor(tree, owners, nearest)
    requires physical as object != nearest as object
    requires MarksExactly(OwnershipGraph(tree, owners), cyclic)
    modifies physical, nearest
    ensures ModalTableFor(tree, physical) && PopupTableFor(tree, owners, nearest)
    ensures ModalsSoFar(tree, owners, cyclic, modals)
    ensures forall b :: b in modals <==> Owned(owners, Some(b)) && b !in cyclic
  {
    hide ModalTableFor;
    hide PopupTableFor;
    hide MarksExactly;
    hide OwnershipGraph;
    hide ModalOfPopup;
    modals := map[];
    for i := 0 to |keys|
      invariant ModalTableFor(tree, physical) && PopupTableFor(tree, owners, nearest)
      invariant ModalsSoFar(tree, owners, cyclic, modals)
      invariant forall k :: 0 <= k < i && Owned(owners, Some(keys[k])) && keys[k] !in cyclic ==> keys[k] in modals
    {
      modals := ResolvePopup(tree, owners, cyclic, physical, nearest, keys[i], modals);
    }
  }

  // ------------------------------------------------------- focused ancestors

  /** The owner that focus passes to from a node: of an unmarked popup, inside the focused modal if there is one. */
  ghost function FocusOwner(tree: AxTree, owners: Owners, cyclic: set<Backend>,
    focusedModal: Option<AxNode>, id: NodeId)
    : Option<NodeId>
  {
    if id !in tree.byId then None
    else
      var b := tree.byId[id].backend;
      if !Owned(owners, b) || b.value in cyclic then None
      else if focusedModal.Some? && PhysicalModal(tree, owners[b.value].value) != Some(focusedModal.value.backend) then
        None
      else owners[b.value]
  }

  /** A node that is its own modal: the upward walk stops after it. */
  ghost predicate Boundary(tree: AxTree, id: NodeId) {
    id in tree.byId && PhysicalModal(tree, id) == Some(tree.byId[id].backend)
  }

  /** The nodes whose popups are examined first. */
  ghost predicate Initial(tree: AxTree, focusedModal: Option<AxNode>, focused: seq<NodeId>, id: NodeId) {
    id in focused && (focusedModal.Some? ==> PhysicalModal(tree, id) == Some(focusedModal.value.backend))
  }

  /**
   `s` contains the focused nodes, the owner that each examined node passes
   focus to, and everything above an added node up to the next modal.
   */
  ghost predicate FocusClosed(tree: AxTree, owners: Owners, cyclic: set<Backend>, focusedModal: Option<AxNode>,
                              focused: seq<NodeId>, s: set<NodeId>)
  {
    && (forall id :: id in focused ==> id in s)
    && (forall id :: id in s && (Initial(tree, focusedModal, focused, id) || id !in focused) ==>
          var o := FocusOwner(tree, owners, cyclic, focusedModal, id);
          o.Some? ==> o.value in s)
    && forall id :: id in s && id !in focused && !Boundary(tree, id) && id in Parents(tree) ==> Parents(tree)[id] in s
  }

  /** Adds an owner and the nodes above it up to a modal or a node already focused. */
  method AddOwnerChain(tree: AxTree, owners: Owners, cyclic: set<Backend>, focusedModal: Option<AxNode>,
                       focused: seq<NodeId>, physical: ModalTable, owner: NodeId, s0: set<NodeId>)
    returns (s: set<NodeId>, added: seq<NodeId>)
    requires ModalTableFor(tree, physical)
    requires owner in tree.byId && s0 <= tree.byId.Keys && forall id :: id in focused ==> id in s0
    requires forall id :: id in s0 && id !in focused && !Boundary(tree, id) && id in Parents(tree) ==>
                       Parents(tree)[id] in s0
    requires forall t :: FocusClosed(tree, owners, cyclic, focusedModal, focused, t) ==> s0 <= t && owner in t
    modifies physical
    ensures ModalTableFor(tree, physical)
    ensures s0 <= s <= tree.byId.Keys && owner in s
    ensures forall id :: id in added <==> id in s && id !in s0
    ensures forall id :: id in s && id !in focused && !Boundary(tree, id) && id in Parents(tree) ==>
                      Parents(tree)[id] in s
    ensures forall t :: FocusClosed(tree, owners, cyclic, focusedModal, focused, t) ==> s <= t
  {
    s, added := s0, [];
    var current := Some(owner);
    while current.Some? && current.value !in s
      invariant ModalTableFor(tree, physical)
      invariant s0 <= s <= tree.byId.Keys
      invariant forall id :: id in added <==> id in s && id !in s0
      invariant current.Some? ==> current.value in tree.byId
      invariant owner in s || current == Some(owner)
      invariant forall id :: id in s && id !in focused && !Boundary(tree, id) && id in Parents(tree) ==>
                  Parents(tree)[id] in s || current == Some(Parents(tree)[id])
      invariant forall t :: FocusClosed(tree, owners, cyclic, focusedModal, focused, t) ==>
                  s <= t && (current.Some? ==> current.value in t)
      decreases tree.byId.Keys - s
    {
      var id := current.value;
      s := s + {id};
      added := added + [id];
      var modal := physical.Nearest(current);
      if modal == Some(tree.byId[id].backend) {
        break;
      }
      current := if id in Parents(tree) then Some(Parents(tree)[id]) else None;
    }
  }

  /** The first focused node that is its own modal. */
  method FindFocusedModal(tree: AxTree, focused: seq<NodeId>, physical: ModalTable) returns (modal: Option<AxNode>)
    requires ModalTableFor(tree, physical) && forall id :: id in focused ==> id in tree.byId
    modifies physical
    ensures ModalTableFor(tree, physical)
    ensures match modal
            case None => forall id :: id in focused ==> !Boundary(tree, id)
            case Some(n) => exists i :: 0 <= i < |focused| && Boundary(tree, focused[i]) && tree.byId[focused[i]] == n
                                        && forall j :: 0 <= j < i ==> !Boundary(tree, focused[j])
  {
    for i := 0 to |focused|
      invariant ModalTableFor(tree, physical)
      invariant forall j :: 0 <= j < i ==> !Boundary(tree, focused[j])
    {
      var found := physical.Nearest(Some(focused[i]));
      if found == Some(tree.byId[focused[i]].backend) {
        return Some(tree.byId[focused[i]]);
      }
    }
    modal := None;
  }

  /** The ids whose popups are examined first, in insertion order. */
  method InitialQueue(tree: AxTree, focused: seq<NodeId>, focusedModal: Option<AxNode>, physical: ModalTable)
    returns (queue: seq<NodeId>)
    requires ModalTableFor(tree, physical)
    modifies physical
    ensures ModalTableFor(tree, physical)
    ensures forall id :: id in queue <==> Initial(tree, focusedModal, focused, id)
  {
    queue := [];
    for i := 0 to |focused|
      invariant ModalTableFor(tree, physical)
      invariant forall id :: id in queue ==> Initial(tree, focusedModal, focused, id)
      invariant forall j :: 0 <= j < i && Initial(tree, focusedModal, focused, focused[j]) ==> focused[j] in queue
    {
      var found := physical.Nearest(Some(focused[i]));
      if focusedModal.None? || found == Some(focusedModal.value.backend) {
        queue := queue + [focused[i]];
      }
    }
  }

  method OwnerToFocus(tree: AxTree, owners: Owners, cyclic: set<Backend>, focusedModal: Option<AxNode>,
                      physical: ModalTable, id: NodeId)
    returns (owner: Option<NodeId>)
    requires ModalTableFor(tree, physical) && OwnersPresent(tree, owners) && id in tree.byId
    modifies physical
    ensures ModalTableFor(tree, physical)
    ensures owner == FocusOwner(tree, owners, cyclic, focusedModal, id)
    ensures owner.Some? ==> owner.value in tree.byId
  {
    var b := tree.byId[id].backend;
    if !Owned(owners, b) || b.value in cyclic {
      return None;
    }
    owner := owners[b.value];
    if focusedModal.Some? {
      var found := physical.Nearest(owner);
      if found != Some(focusedModal.value.backend) {
        owner := None;
      }
    }
  }

  /** The focus set grows to the least set closed under passing focus to owners and their ancestors. */
  method ExtendFocus(tree: AxTree, owners: Owners, cyclic: set<Backend>, focused: seq<NodeId>, physical: ModalTable)
    returns (focusedModal: Option<AxNode>, s: set<NodeId>)
    requires ModalTableFor(tree, physical) && OwnersPresent(tree, owners)
    requires forall id :: id in focused ==> id in tree.byId
    modifies physical
    ensures ModalTableFor(tree, physical)
    ensures FocusClosed(tree, owners, cyclic, focusedModal, focused, s)
    ensures forall t :: FocusClosed(tree, owners, cyclic, focusedModal, focused, t) ==> s <= t
  {
    hide ModalTableFor;
    hide OwnersPresent;
    hide PhysicalModal;
    hide FocusOwner;
    hide Boundary;
    hide Parents;
    focusedModal := FindFocusedModal(tree, focused, physical);
    var queue := InitialQueue(tree, focused, focusedModal, physical);
    ghost var first := queue;
    s := set id | id in focused;
    var index := 0;
    while index < |queue|
      invariant ModalTableFor(tree, physical)
      invariant index <= |queue| && s <= tree.byId.Keys
      invariant forall id :: id in focused ==> id in s
      invariant forall id :: id in queue <==> id in s && (id in first || id !in focused)
      invariant forall k :: 0 <= k < index ==>
                  var o := FocusOwner(tree, owners, cyclic, focusedModal, queue[k]);
                  o.Some? ==> o.value in s
      invariant forall id :: id in s && id !in focused && !Boundary(tree, id) && id in Parents(tree) ==>
                        Parents(tree)[id] in s
      invariant forall t :: FocusClosed(tree, owners, cyclic, focusedModal, focused, t) ==> s <= t
      decreases tree.byId.Keys - s, |queue| - index
    {
      var id := queue[index];
      assert id in queue;
      index := index + 1;
      var owner := OwnerToFocus(tree, owners, cyclic, focusedModal, physical, id);
      if owner.None? {
        continue;
      }
      var added;
      ghost var before := s;
      s, added := AddOwnerChain(tree, owners, cyclic, focusedModal, focused, physical, owner.value, s);
      if added == [] {
        assert s == before;
      } else {
        assert added[0] in added && added[0] in tree.byId.Keys - before && added[0] !in tree.byId.Keys - s;
      }
      queue := queue + added;
    }
    assert forall id :: id in queue ==> exists k :: 0 <= k < |queue| && queue[k] == id;
  }

  // -------------------------------------------------------------- the search

  /**
   The whole of `extendOwnedPopupFocus`: the extended focus set and the modal of
   every popup with one owner that reaches no cycle.
   */
  method ExtendOwnedPopupFocus(tree: AxTree, dom: set<Backend>, controlRoles: set<Role>, focused: seq<NodeId>)
    returns (owners: Owners, cyclic: set<Backend>, focusedModal: Option<AxNode>, focus: set<NodeId>,
             modals: map<Backend, Option<Option<Backend>>>)
    requires tree.Listed() && forall id :: id in focused ==> id in tree.byId
    ensures OwnersExact(tree, dom, controlRoles, owners) && OwnersPresent(tree, owners)
    ensures MarksExactly(OwnershipGraph(tree, owners), cyclic)
    ensures FocusClosed(tree, owners, cyclic, focusedModal, focused, focus)
    ensures forall t :: FocusClosed(tree, owners, cyclic, focusedModal, focused, t) ==> focus <= t
    ensures forall b :: b in modals <==> Owned(owners, Some(b)) && b !in cyclic
    ensures forall b :: b in modals ==> modals[b] == ModalOfPopup(tree, owners, b)
  {
    var keys;
    keys, owners := CollectOwners(tree, dom, controlRoles);
    ExactOwnersArePresent(tree, dom, controlRoles, owners);
    var physical := new AncestorTable<NodeId, Option<Backend>>(Parents(tree), ModalStops(tree));
    var nearest := new AncestorTable<NodeId, Backend>(Parents(tree), PopupStops(tree, owners));
    var graph := BuildGraph(tree, owners, keys, nearest);
    cyclic := MarkCyclic(keys, graph);
    focusedModal, focus := ExtendFocus(tree, owners, cyclic, focused, physical);
    modals := PopupModals(tree, owners, keys, cyclic, physical, nearest);
  }
}

/**
 Element paths of the capture probe. A frozen path prints where a snapshot node
 sits as element-only child positions from the document; the live resolver reads
 such a path against the DOM tree again. Snapshot nodes are named by their index,
 and a live node carries the index of the snapshot node it is.
 */
module FrozenPath {
  import opened Wrappers

  const MAX_PATH := 512

  /** A lower-cased node name: `#document`, another `#` or `::` name, none, or a tag. */
  datatype Name = DocumentName | HashOrPseudo | NoName | TagName(tag: string)

  datatype NodeType = Unstated | ElementType | OtherType

  datatype Node = Node(parent: int, nodeType: NodeType, name: Name)

  datatype Step = Step(tag: string, position: nat)

  predicate InModel(model: seq<Node>, i: int) {
    0 <= i < |model|
  }

  predicate IsElement(model: seq<Node>, i: int) {
    && InModel(model, i)
    && model[i].name.TagName? && model[i].name.tag != ""
    && (model[i].nodeType == Unstated || model[i].nodeType == ElementType)
  }

  predicate IsDocument(model: seq<Node>, i: int) {
    InModel(model, i) && model[i].name.DocumentName?
  }

  // -------------------------------------------------------------- positions

  /** The element children of `p` among the first `n` nodes, in order. */
  function Elements(model: seq<Node>, p: int, n: nat): seq<nat>
    requires n <= |model|
  {
    if n == 0 then []
    else if model[n - 1].parent == p && IsElement(model, n - 1) then Elements(model, p, n - 1) + [n - 1]
    else Elements(model, p, n - 1)
  }

  /** The element-only child position of `i`. */
  function Position(model: seq<Node>, i: nat): nat
    requires i < |model|
  {
    |Elements(model, model[i].parent, i)|
  }

  lemma {:induction false} ElementsGrow(model: seq<Node>, p: int, m: nat, n: nat)
    requires m <= n <= |model|
    ensures Elements(model, p, m) <= Elements(model, p, n)
  {
    if m < n {
      ElementsGrow(model, p, m, n - 1);
    }
  }

  /** The position of an element finds it among its parent's element children. */
  lemma PositionFinds(model: seq<Node>, i: nat)
    requires IsElement(model, i)
    ensures var siblings := Elements(model, model[i].parent, |model|);
            Position(model, i) < |siblings| && siblings[Position(model, i)] == i
  {
    ElementsGrow(model, model[i].parent, i + 1, |model|);
  }

  // ------------------------------------------------------------ frozen paths

  /** Exactly `d` element ancestors, the node included, lead to a document. */
  predicate LeadsToDocument(model: seq<Node>, i: int, d: nat)
    decreases d
  {
    if d == 0 then IsDocument(model, i)
    else IsElement(model, i) && LeadsToDocument(model, model[i].parent, d - 1)
  }

  function StepAt(model: seq<Node>, i: nat): Step
    requires IsElement(model, i)
  {
    Step(model[i].name.tag, Position(model, i))
  }

  /** The steps from the document down to `i`. */
  function StepsDown(model: seq<Node>, i: int, d: nat): seq<Step>
    requires LeadsToDocument(model, i, d)
    decreases d
  {
    if d == 0 then [] else StepsDown(model, model[i].parent, d - 1) + [StepAt(model, i)]
  }

  lemma {:induction false} DepthIsUnique(model: seq<Node>, i: int, d: nat, e: nat)
    requires LeadsToDocument(model, i, d) && LeadsToDocument(model, i, e)
    ensures d == e
    decreases d
  {
    if d > 0 && e > 0 {
      DepthIsUnique(model, model[i].parent, d - 1, e - 1);
    }
  }

  function Reversed<T>(s: seq<T>): (r: seq<T>)
    ensures |r| == |s|
  {
    if s == [] then [] else [s[|s| - 1]] + Reversed(s[..|s| - 1])
  }

  /** `n` elements, the node included, lead up to `top`. */
  predicate Climbs(model: seq<Node>, i: int, n: nat, top: int)
    decreases n
  {
    if n == 0 then i == top
    else IsElement(model, i) && Climbs(model, model[i].parent, n - 1, top)
  }

  /** The steps in the order in which the walk pushes them. */
  function StepsUp(model: seq<Node>, i: int, n: nat, top: int): (r: seq<Step>)
    requires Climbs(model, i, n, top)
    ensures |r| == n
    decreases n
  {
    if n == 0 then [] else [StepAt(model, i)] + StepsUp(model, model[i].parent, n - 1, top)
  }

  lemma {:induction false} ClimbsOn(model: seq<Node>, i: int, n: nat, top: int)
    requires Climbs(model, i, n, top) && IsElement(model, top)
    ensures Climbs(model, i, n + 1, model[top].parent)
    ensures StepsUp(model, i, n + 1, model[top].parent) == StepsUp(model, i, n, top) + [StepAt(model, top)]
    decreases n
  {
    if n > 0 {
      ClimbsOn(model, model[i].parent, n - 1, top);
    } else {
      assert Climbs(model, model[top].parent, 0, model[top].parent);
    }
  }

  lemma {:induction false} DepthAfterClimb(model: seq<Node>, i: int, n: nat, top: int, d: nat)
    requires Climbs(model, i, n, top) && LeadsToDocument(model, i, d)
    ensures n <= d && LeadsToDocument(model, top, d - n)
    decreases n
  {
    if n > 0 {
      DepthAfterClimb(model, model[i].parent, n - 1, top, d - 1);
    }
  }

  lemma {:induction false} ReversedAppend<T>(x: T, s: seq<T>)
    ensures Reversed([x] + s) == Reversed(s) + [x]
  {
    if s != [] {
      var t := [x] + s;
      assert t[..|t| - 1] == [x] + s[..|s| - 1];
      ReversedAppend(x, s[..|s| - 1]);
    }
  }

  /** Reversing what was pushed gives the steps from the document down. */
  lemma {:induction false} ReverseGivesDown(model: seq<Node>, i: int, n: nat, top: int)
    requires Climbs(model, i, n, top) && IsDocument(model, top)
    ensures LeadsToDocument(model, i, n) && StepsDown(model, i, n) == Reversed(StepsUp(model, i, n, top))
    decreases n
  {
    if n > 0 {
      ReverseGivesDown(model, model[i].parent, n - 1, top);
      ReversedAppend(StepAt(model, i), StepsUp(model, model[i].parent, n - 1, top));
    }
  }

  /** The path the probe prints: at most 512 steps, and none for a node that is no element. */
  ghost predicate HasPath(model: seq<Node>, node: int, d: nat) {
    1 <= d <= MAX_PATH && LeadsToDocument(model, node, d)
  }

  class ElementPaths {
    const model: seq<Node>
    const positions: map<int, nat>

    ghost predicate Valid() {
      forall i :: IsElement(model, i) ==> i in positions && positions[i] == Position(model, i)
    }

    constructor (model: seq<Node>)
      ensures Valid() && this.model == model
    {
      var positions: map<int, nat> := map[];
      var counts: map<int, nat> := map[];
      for index := 0 to |model|
        invariant forall i :: 0 <= i < index && IsElement(model, i) ==>
                    i in positions && positions[i] == Position(model, i)
        invariant forall p :: (if p in counts then counts[p] else 0) == |Elements(model, p, index)|
      {
        if IsElement(model, index) {
          var parent := model[index].parent;
          var position := if parent in counts then counts[parent] else 0;
          positions := positions[index := position];
          counts := counts[parent := position + 1];
        }
      }
      this.model := model;
      this.positions := positions;
    }

    /** A path exists exactly when 1 to 512 element-only ancestors, the node included, lead to a document. */
    method PathOf(node: int) returns (result: Option<seq<Step>>)
      requires Valid()
      ensures result.Some? <==> exists d: nat :: HasPath(model, node, d)
      ensures forall d: nat :: HasPath(model, node, d) ==> result == Some(StepsDown(model, node, d))
    {
      var path: seq<Step> := [];
      var current := node;
      while IsElement(model, current) && |path| < MAX_PATH
        invariant |path| <= MAX_PATH
        invariant Climbs(model, node, |path|, current) && StepsUp(model, node, |path|, current) == path
        decreases MAX_PATH - |path|
      {
        ClimbsOn(model, node, |path|, current);
        path := path + [Step(model[current].name.tag, positions[current])];
        current := model[current].parent;
      }
      WalkDecides(model, node, |path|, current);
      if 0 <= current < |model| && model[current].name.DocumentName? && |path| > 0 {
        assert HasPath(model, node, |path|);
        return Some(Reversed(path));
      }
      return None;
    }
  }

  /** When the walk stops, the node has a path exactly if it stopped at a document after some steps. */
  lemma WalkDecides(model: seq<Node>, node: int, n: nat, top: int)
    requires n <= MAX_PATH && Climbs(model, node, n, top) && (!IsElement(model, top) || n == MAX_PATH)
    ensures forall d: nat :: HasPath(model, node, d) <==> d == n && n > 0 && IsDocument(model, top)
    ensures IsDocument(model, top) ==>
              LeadsToDocument(model, node, n) && StepsDown(model, node, n) == Reversed(StepsUp(model, node, n, top))
  {
    if IsDocument(model, top) {
      ReverseGivesDown(model, node, n, top);
    }
    forall d: nat | HasPath(model, node, d)
      ensures d == n && n > 0 && IsDocument(model, top)
    {
      DepthAfterClimb(model, node, n, top, d);
    }
  }

  // ------------------------------------------------------------ distinctness

  ghost predicate OneDocument(model: seq<Node>, root: int) {
    IsDocument(model, root) && forall i :: IsDocument(model, i) ==> i == root
  }

  /** Two elements of one parent never share a position. */
  lemma PositionsDiffer(model: seq<Node>, i: nat, j: nat)
    requires i < j && IsElement(model, i) && IsElement(model, j) && model[i].parent == model[j].parent
    ensures Position(model, i) < Position(model, j)
  {
    ElementsGrow(model, model[i].parent, i + 1, j);
  }

  /** Distinct nodes have distinct paths. */
  lemma {:induction false} PathsAreDistinct(model: seq<Node>, root: int, i: int, d: nat, j: int, e: nat)
    requires OneDocument(model, root) && LeadsToDocument(model, i, d) && LeadsToDocument(model, j, e)
    requires StepsDown(model, i, d) == StepsDown(model, j, e)
    ensures i == j && d == e
    decreases d
  {
    DownLength(model, i, d);
    DownLength(model, j, e);
    if d > 0 {
      var pathI := StepsDown(model, model[i].parent, d - 1);
      var pathJ := StepsDown(model, model[j].parent, e - 1);
      assert pathI == StepsDown(model, i, d)[..d - 1] && pathJ == StepsDown(model, j, e)[..d - 1] by {
        DownLength(model, model[i].parent, d - 1);
        DownLength(model, model[j].parent, e - 1);
      }
      PathsAreDistinct(model, root, model[i].parent, d - 1, model[j].parent, e - 1);
      assert StepAt(model, i) == StepsDown(model, i, d)[d - 1] == StepsDown(model, j, e)[d - 1] == StepAt(model, j) by {
        DownLength(model, model[i].parent, d - 1);
        DownLength(model, model[j].parent, e - 1);
      }
      if i < j {
        PositionsDiffer(model, i, j);
      } else if j < i {
        PositionsDiffer(model, j, i);
      }
    }
  }

  lemma {:induction false} DownLength(model: seq<Node>, i: int, d: nat)
    requires LeadsToDocument(model, i, d)
    ensures |StepsDown(model, i, d)| == d
    decreases d
  {
    if d > 0 {
      DownLength(model, model[i].parent, d - 1);
    }
  }

  // ---------------------------------------------------------- live resolving

  /** A node of the live tree; `name` is its lower-cased local name, or node name without one. */
  datatype LiveNode = LiveNode(nodeType: NodeType, name: string, children: seq<nat>)

  /** The live children of element type, in order. */
  function ElementChildren(live: seq<LiveNode>, children: seq<nat>): seq<nat> {
    if children == [] then []
    else
      var front := ElementChildren(live, children[..|children| - 1]);
      var last := children[|children| - 1];
      if last < |live| && live[last].nodeType == ElementType then front + [last] else front
  }

  /** One step of the resolver: the element child at the position, if it has the name. */
  function Descend(live: seq<LiveNode>, node: nat, step: Step): Option<nat>
    requires node < |live|
  {
    var elements := ElementChildren(live, live[node].children);
    if step.position < |elements| && elements[step.position] < |live| && live[elements[step.position]].name == step.tag
    then Some(elements[step.position])
    else None
  }

  function Resolved(live: seq<LiveNode>, root: nat, path: seq<Step>): (r: Option<nat>)
    requires root < |live|
    ensures r.Some? ==> r.value < |live|
  {
    if path == [] then Some(root)
    else
      match Resolved(live, root, path[..|path| - 1])
      case None => None
      case Some(node) => Descend(live, node, path[|path| - 1])
  }

  method ElementChildrenOf(live: seq<LiveNode>, node: nat) returns (elements: seq<nat>)
    requires node < |live|
    ensures elements == ElementChildren(live, live[node].children)
  {
    elements := [];
    var children := live[node].children;
    for k := 0 to |children|
      invariant elements == ElementChildren(live, children[..k])
    {
      assert children[..k + 1][..k] == children[..k];
      if children[k] < |live| && live[children[k]].nodeType == ElementType {
        elements := elements + [children[k]];
      }
    }
    assert children[..|children|] == children;
  }

  /** The resolver stops at the first step that finds no element of the name; steps carry non-empty names. */
  method Resolve(live: seq<LiveNode>, root: nat, path: seq<Step>) returns (result: Option<nat>)
    requires root < |live|
    ensures result == Resolved(live, root, path)
  {
    var node := root;
    for k := 0 to |path|
      invariant node < |live| && Resolved(live, root, path[..k]) == Some(node)
    {
      assert path[..k + 1][..k] == path[..k];
      var elements := ElementChildrenOf(live, node);
      var position := path[k].position;
      if position >= |elements| || elements[position] >= |live| || live[elements[position]].name != path[k].tag {
        StaysLost(live, root, path, k + 1);
        return None;
      }
      node := elements[position];
    }
    assert path[..|path|] == path;
    return Some(node);
  }

  lemma {:induction false} StaysLost(live: seq<LiveNode>, root: nat, path: seq<Step>, k: nat)
    requires root < |live| && k <= |path| && Resolved(live, root, path[..k]) == None
    ensures Resolved(live, root, path) == None
    decreases |path| - k
  {
    if k < |path| {
      assert path[..k + 1][..k] == path[..k];
      StaysLost(live, root, path, k + 1);
    } else {
      assert path[..k] == path;
    }
  }

  /** One DOM tree: below the document and every element, both trees have the same elements in the same order. */
  ghost predicate SameTree(model: seq<Node>, live: seq<LiveNode>, root: int) {
    && |live| == |model| && IsDocument(model, root)
    && forall p :: 0 <= p < |model| && (p == root || IsElement(model, p)) ==> SameElements(model, live, p)
  }

  predicate SameElements(model: seq<Node>, live: seq<LiveNode>, p: nat)
    requires p < |live|
  {
    ElementChildren(live, live[p].children) == Elements(model, p, |model|)
  }

  /** Along the path, the live names are the snapshot names. */
  predicate SameNames(model: seq<Node>, live: seq<LiveNode>, i: int, d: nat)
    requires |live| == |model| && LeadsToDocument(model, i, d)
    decreases d
  {
    d == 0 || (live[i].name == model[i].name.tag && SameNames(model, live, model[i].parent, d - 1))
  }

  lemma ParentOnPath(model: seq<Node>, root: int, i: int, d: nat)
    requires OneDocument(model, root) && d > 0 && LeadsToDocument(model, i, d)
    ensures InModel(model, model[i].parent) && (model[i].parent == root || IsElement(model, model[i].parent))
  {
    assert LeadsToDocument(model, model[i].parent, d - 1);
  }

  /** Resolving a frozen path on the same tree gives the same node, exactly when the names along it are the same. */
  lemma {:induction false} ResolvesToItself(model: seq<Node>, live: seq<LiveNode>, root: nat, i: int, d: nat)
    requires OneDocument(model, root) && SameTree(model, live, root) && LeadsToDocument(model, i, d)
    ensures Resolved(live, root, StepsDown(model, i, d)) == if SameNames(model, live, i, d) then Some(i) else None
    decreases d
  {
    if d > 0 {
      var parent := model[i].parent;
      var path := StepsDown(model, i, d);
      ResolvesToItself(model, live, root, parent, d - 1);
      assert path[..|path| - 1] == StepsDown(model, parent, d - 1);
      ParentOnPath(model, root, i, d);
      assert SameElements(model, live, parent);
      hide OneDocument;
      hide SameTree;
      PositionFinds(model, i);
      hide Elements;
      hide ElementChildren;
    }
  }

  const PREFIXED_MODEL: seq<Node> := [Node(-1, OtherType, DocumentName), Node(0, ElementType, TagName("svg:rect"))]
  const PREFIXED_LIVE: seq<LiveNode> :=
    [LiveNode(OtherType, "#document", [1]), LiveNode(ElementType, "rect", [])]

  lemma PrefixedElements()
    ensures Elements(PREFIXED_MODEL, 0, 2) == [1] && Elements(PREFIXED_MODEL, 1, 2) == []
    ensures ElementChildren(PREFIXED_LIVE, [1]) == [1] && ElementChildren(PREFIXED_LIVE, []) == []
    ensures PREFIXED_LIVE[0].children == [1] && PREFIXED_LIVE[1].children == []
  {
    var m := PREFIXED_MODEL;
    assert IsElement(m, 1) && !IsElement(m, 0);
    assert Elements(m, 0, 0) == [] && Elements(m, 0, 1) == [];
    assert Elements(m, 1, 0) == [] && Elements(m, 1, 1) == [];
    assert [1][..0] == [];
  }

  lemma PrefixedPath()
    ensures OneDocument(PREFIXED_MODEL, 0)
    ensures LeadsToDocument(PREFIXED_MODEL, 0, 0) && LeadsToDocument(PREFIXED_MODEL, 1, 1)
  {
  }

  lemma PrefixedNames()
    ensures PREFIXED_LIVE[1].name != PREFIXED_MODEL[1].name.tag
  {
    assert PREFIXED_LIVE[1].name[0] == 'r' && PREFIXED_MODEL[1].name.tag[0] == 's';
  }

  /** A prefixed element: the snapshot name has the prefix, the live local name has not, and the path is lost. */
  lemma PrefixedNameExample()
    ensures OneDocument(PREFIXED_MODEL, 0)
            && SameTree(PREFIXED_MODEL, PREFIXED_LIVE, 0) && HasPath(PREFIXED_MODEL, 1, 1)
    ensures Resolved(PREFIXED_LIVE, 0, StepsDown(PREFIXED_MODEL, 1, 1)) == None
  {
    assert |PREFIXED_LIVE| == |PREFIXED_MODEL| == 2;
    PrefixedElements();
    PrefixedPath();
    PrefixedNames();
    hide PREFIXED_MODEL;
    hide PREFIXED_LIVE;
    hide Elements;
    hide ElementChildren;
    assert SameElements(PREFIXED_MODEL, PREFIXED_LIVE, 0) && SameElements(PREFIXED_MODEL, PREFIXED_LIVE, 1);
    ResolvesToItself(PREFIXED_MODEL, PREFIXED_LIVE, 0, 1, 1);
  }
}

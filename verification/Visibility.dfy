/**
 The visibility evaluator of the capture probe: every node of a snapshot gets a
 clip rectangle, an opacity and a blocked flag folded down from its ancestors.
 The evaluator fills a table along parent walks; the reference is the fold
 itself, which knows no table. Amounts are exact reals, and style texts are
 taken as already parsed.
 */
module Visibility {
  import opened Wrappers

  const MIN_EFFECTIVE_OPACITY := 0.01

  datatype Length = Pixels(amount: real) | Percent(amount: real) | Unreadable

  datatype Bounds = Bounds(x: real, y: real, width: real, height: real)

  datatype Rect = Rect(left: real, top: real, right: real, bottom: real)

  datatype ClipPath =
    | NoClip
    | InsetClip(values: seq<Length>)
    | CircleClip(radii: seq<Length>)
    | EllipseClip(radii: seq<Length>)

  datatype Opacity = NotFinite | Amount(value: real)

  datatype Style = Style(
    opacity: Opacity,
    filters: seq<real>,
    clipsX: bool,
    clipsY: bool,
    clipPath: ClipPath,
    displayNone: bool,
    contentHidden: bool,
    maskBlocks: bool,
    invisible: bool)

  /** `parent` is the index of the parent; any number outside the model means none. */
  datatype Node = Node(parent: int, bounds: Option<Bounds>, style: Style)

  datatype State = State(blocked: bool, opacity: real, clip: Rect)

  datatype Shown = Shown(rect: Rect, opacity: real)

  // ------------------------------------------------------------- rectangles

  function Max(a: real, b: real): real { if a >= b then a else b }

  function Min(a: real, b: real): real { if a <= b then a else b }

  function Clamp(x: real): real { Max(0.0, Min(1.0, x)) }

  predicate Inside(r: Rect, outer: Rect) {
    outer.left <= r.left && outer.top <= r.top && r.right <= outer.right && r.bottom <= outer.bottom
  }

  predicate Empty(r: Rect) {
    r.right <= r.left || r.bottom <= r.top
  }

  function Area(b: Bounds): Rect {
    Rect(b.x, b.y, b.x + b.width, b.y + b.height)
  }

  function Meet(a: Rect, b: Rect): Rect {
    Rect(Max(a.left, b.left), Max(a.top, b.top), Min(a.right, b.right), Min(a.bottom, b.bottom))
  }

  // ------------------------------------------------------------ style values

  function InPixels(length: Length, reference: real): real
    requires !length.Unreadable?
  {
    match length
    case Pixels(amount) => amount
    case Percent(amount) => amount / 100.0 * reference
  }

  /** The four insets in the order top, right, bottom, left, as CSS expands one to four values. */
  function Expanded(values: seq<Length>): Option<seq<Length>> {
    if |values| == 1 then Some([values[0], values[0], values[0], values[0]])
    else if |values| == 2 then Some([values[0], values[1], values[0], values[1]])
    else if |values| == 3 then Some([values[0], values[1], values[2], values[1]])
    else if |values| == 4 then Some(values)
    else None
  }

  function InsetRect(clip: ClipPath, bounds: Bounds): Option<Rect> {
    if !clip.InsetClip? then None
    else
      match Expanded(clip.values)
      case None => None
      case Some(box) =>
        if exists k :: 0 <= k < |box| && box[k].Unreadable? then None
        else if |box| != 4 then None
        else Some(Rect(bounds.x + InPixels(box[3], bounds.width),
                       bounds.y + InPixels(box[0], bounds.height),
                       bounds.x + bounds.width - InPixels(box[1], bounds.width),
                       bounds.y + bounds.height - InPixels(box[2], bounds.height)))
  }

  /** A circle or ellipse whose readable radii include one that is not positive. */
  predicate ZeroRadius(clip: ClipPath, bounds: Bounds) {
    match clip
    case CircleClip(radii) =>
      |radii| >= 1 && !radii[0].Unreadable? && InPixels(radii[0], bounds.width) <= 0.0
    case EllipseClip(radii) =>
      && |radii| >= 2 && !radii[0].Unreadable? && !radii[1].Unreadable?
      && (InPixels(radii[0], bounds.width) <= 0.0 || InPixels(radii[1], bounds.height) <= 0.0)
    case _ => false
  }

  function Product(factors: seq<real>): real {
    if factors == [] then 1.0 else Product(factors[..|factors| - 1]) * factors[|factors| - 1]
  }

  method FilterOpacity(filters: seq<real>) returns (r: real)
    ensures r == Clamp(Product(filters))
  {
    var opacity := 1.0;
    for i := 0 to |filters|
      invariant opacity == Product(filters[..i])
    {
      assert filters[..i + 1][..i] == filters[..i];
      opacity := opacity * filters[i];
    }
    assert filters[..|filters|] == filters;
    r := Max(0.0, Min(1.0, opacity));
  }

  function StatedOpacity(style: Style): (r: real)
    ensures Unit(r)
  {
    if style.opacity.NotFinite? then 1.0 else Clamp(style.opacity.value)
  }

  function OwnOpacity(style: Style): (r: real)
    ensures Unit(r)
  {
    UnitTimesUnit(StatedOpacity(style), Clamp(Product(style.filters)));
    StatedOpacity(style) * Clamp(Product(style.filters))
  }

  predicate Unit(x: real) { 0.0 <= x <= 1.0 }

  lemma UnitTimesUnit(a: real, b: real)
    requires Unit(a) && Unit(b)
    ensures Unit(a * b) && a * b <= a
  {
    assert a * (1.0 - b) >= 0.0 && a * b >= 0.0 by {
      NotNegative(a, b);
      NotNegative(a, 1.0 - b);
    }
    assert a * (1.0 - b) == a - a * b;
  }

  lemma NotNegative(a: real, b: real)
    requires a >= 0.0 && b >= 0.0
    ensures a * b >= 0.0
  {
  }

  // --------------------------------------------------------- one step down

  /** The node itself hides its whole subtree. */
  predicate Hides(node: Node) {
    || node.style.displayNone
    || node.style.contentHidden
    || node.style.maskBlocks
    || (node.bounds.Some? && ZeroRadius(node.style.clipPath, node.bounds.value))
  }

  /** The rectangle lies inside every clip the node applies to its subtree. */
  predicate WithinClips(r: Rect, node: Node) {
    node.bounds.Some? ==>
      var area := Area(node.bounds.value);
      && (node.style.clipsX ==> area.left <= r.left && r.right <= area.right)
      && (node.style.clipsY ==> area.top <= r.top && r.bottom <= area.bottom)
      && match InsetRect(node.style.clipPath, node.bounds.value)
         case None => true
         case Some(inset) => Inside(r, inset)
  }

  /** `clip` narrowed by the node's own clips. */
  function Narrowed(clip: Rect, node: Node): Rect {
    if node.bounds.None? then clip
    else
      var area := Area(node.bounds.value);
      var sideways := if node.style.clipsX then Meet(clip, area.(top := clip.top, bottom := clip.bottom)) else clip;
      var both := if node.style.clipsY then Meet(sideways, area.(left := clip.left, right := clip.right)) else sideways;
      match InsetRect(node.style.clipPath, node.bounds.value)
      case None => both
      case Some(inset) => Meet(both, inset)
  }

  function Extended(parent: State, node: Node): State {
    var clip := Narrowed(parent.clip, node);
    State(parent.blocked || Hides(node) || Empty(clip), parent.opacity * OwnOpacity(node.style), clip)
  }

  /** `Narrowed` is the largest rectangle inside the old clip and all the node's clips. */
  lemma NarrowedIsLargest(clip: Rect, node: Node, r: Rect)
    ensures Inside(r, Narrowed(clip, node)) <==> Inside(r, clip) && WithinClips(r, node)
  {
  }

  lemma ExtendedClips(parent: State, node: Node)
    ensures var child := Extended(parent, node);
            && Inside(child.clip, parent.clip) && WithinClips(child.clip, node)
            && (!child.blocked ==> !parent.blocked && !Hides(node) && !Empty(child.clip))
  {
    NarrowedIsLargest(parent.clip, node, Narrowed(parent.clip, node));
  }

  lemma ExtendedFades(parent: State, node: Node)
    requires Unit(parent.opacity)
    ensures var child := Extended(parent, node); Unit(child.opacity) && child.opacity <= parent.opacity
  {
    hide OwnOpacity;
    hide Narrowed;
    UnitTimesUnit(parent.opacity, OwnOpacity(node.style));
    assert Extended(parent, node).opacity == parent.opacity * OwnOpacity(node.style);
  }

  /** Going down, clips nest, opacity does not grow and blocking is inherited. */
  lemma ExtendedDescends(parent: State, node: Node)
    requires Unit(parent.opacity)
    ensures var child := Extended(parent, node);
            && Inside(child.clip, parent.clip) && WithinClips(child.clip, node)
            && Unit(child.opacity) && child.opacity <= parent.opacity
            && (!child.blocked ==> !parent.blocked && !Hides(node) && !Empty(child.clip))
  {
    ExtendedClips(parent, node);
    ExtendedFades(parent, node);
  }

  method Extend(parentState: State, current: Node) returns (state: State)
    ensures state == Extended(parentState, current)
  {
    var opacity := if current.style.opacity.NotFinite? then 1.0 else Max(0.0, Min(1.0, current.style.opacity.value));
    var clip, paintClipped := ClipStep(parentState.clip, current);
    var filtered := FilterOpacity(current.style.filters);
    var blocked := || parentState.blocked || current.style.displayNone || current.style.contentHidden
                   || paintClipped || current.style.maskBlocks || clip.right <= clip.left || clip.bottom <= clip.top;
    TimesAssociates(parentState.opacity, opacity, filtered);
    state := State(blocked, parentState.opacity * opacity * filtered, clip);
  }

  method ClipStep(clip: Rect, current: Node) returns (narrowed: Rect, paintClipped: bool)
    ensures narrowed == Narrowed(clip, current)
    ensures paintClipped == (current.bounds.Some? && ZeroRadius(current.style.clipPath, current.bounds.value))
  {
    var left, top, right, bottom := clip.left, clip.top, clip.right, clip.bottom;
    paintClipped := false;
    if current.bounds.Some? {
      var bounds := current.bounds.value;
      if current.style.clipsX {
        left := Max(left, bounds.x);
        right := Min(right, bounds.x + bounds.width);
      }
      if current.style.clipsY {
        top := Max(top, bounds.y);
        bottom := Min(bottom, bounds.y + bounds.height);
      }
      var insetClip := InsetRect(current.style.clipPath, bounds);
      if insetClip.Some? {
        left := Max(left, insetClip.value.left);
        top := Max(top, insetClip.value.top);
        right := Min(right, insetClip.value.right);
        bottom := Min(bottom, insetClip.value.bottom);
      } else if ZeroRadius(current.style.clipPath, bounds) {
        paintClipped := true;
      }
    }
    narrowed := Rect(left, top, right, bottom);
  }

  lemma TimesAssociates(a: real, b: real, c: real)
    ensures a * b * c == a * (b * c)
  {
  }

  // ------------------------------------------------------------- the fold

  predicate InModel(model: seq<Node>, i: int) {
    0 <= i < |model|
  }

  /** The k-th ancestor; -1 once the walk has left the model. */
  function Above(model: seq<Node>, i: int, k: nat): int {
    if k == 0 then i
    else
      var below := Above(model, i, k - 1);
      if InModel(model, below) then model[below].parent else -1
  }

  /** The parent walk from `i` leaves the model within `k` steps. */
  predicate LeavesAfter(model: seq<Node>, i: int, k: nat) {
    !InModel(model, Above(model, i, k))
  }

  ghost predicate Grounded(model: seq<Node>, i: int) {
    exists k: nat :: LeavesAfter(model, i, k)
  }

  ghost predicate OnLoop(model: seq<Node>, i: int) {
    exists k: nat :: k > 0 && Above(model, i, k) == i
  }

  /** The fold down from the `k`-th ancestor, which starts from the root state. */
  function Fold(model: seq<Node>, root: State, i: int, k: nat): State
    decreases k
  {
    if k == 0 || !InModel(model, i) then root
    else Extended(Fold(model, root, model[i].parent, k - 1), model[i])
  }

  /** The state of a node as its ancestors determine it, from the top down. */
  ghost function TopDown(model: seq<Node>, root: State, i: int): State
    requires Grounded(model, i)
  {
    var k: nat :| LeavesAfter(model, i, k);
    Fold(model, root, i, k)
  }

  lemma {:induction false} AboveFromParent(model: seq<Node>, i: int, k: nat)
    requires InModel(model, i)
    ensures Above(model, i, k + 1) == Above(model, model[i].parent, k)
            || (!InModel(model, Above(model, i, k + 1)) && !InModel(model, Above(model, model[i].parent, k)))
  {
    if k > 0 {
      AboveFromParent(model, i, k - 1);
    } else {
      assert Above(model, i, 0) == i;
    }
  }

  /** How far up the fold starts does not matter once the walk has left the model. */
  lemma {:induction false} FoldSettles(model: seq<Node>, root: State, i: int, k: nat, m: nat)
    requires LeavesAfter(model, i, k) && LeavesAfter(model, i, m)
    ensures Fold(model, root, i, k) == Fold(model, root, i, m)
    decreases k
  {
    if InModel(model, i) {
      assert Above(model, i, 0) == i;
      AboveFromParent(model, i, k - 1);
      AboveFromParent(model, i, m - 1);
      FoldSettles(model, root, model[i].parent, k - 1, m - 1);
    }
  }

  lemma ParentIsGrounded(model: seq<Node>, i: int)
    requires InModel(model, i) && Grounded(model, i)
    ensures Grounded(model, model[i].parent)
  {
    var k: nat :| LeavesAfter(model, i, k);
    assert Above(model, i, 0) == i;
    AboveFromParent(model, i, k - 1);
    assert LeavesAfter(model, model[i].parent, k - 1);
  }

  /** The state of a node is its parent's state extended by the node. */
  lemma TopDownUnfolds(model: seq<Node>, root: State, i: int)
    requires Grounded(model, i)
    ensures !InModel(model, i) ==> TopDown(model, root, i) == root
    ensures InModel(model, i) ==>
              && Grounded(model, model[i].parent)
              && TopDown(model, root, i) == Extended(TopDown(model, root, model[i].parent), model[i])
  {
    if InModel(model, i) {
      ParentIsGrounded(model, i);
      var k: nat :| LeavesAfter(model, i, k) && TopDown(model, root, i) == Fold(model, root, i, k);
      assert k > 0 && Fold(model, root, i, k) == Extended(Fold(model, root, model[i].parent, k - 1), model[i]);
      assert Above(model, i, 0) == i;
      AboveFromParent(model, i, k - 1);
      var m: nat :| LeavesAfter(model, model[i].parent, m)
                    && TopDown(model, root, model[i].parent) == Fold(model, root, model[i].parent, m);
      FoldSettles(model, root, model[i].parent, k - 1, m);
    }
  }

  lemma {:induction false} AboveAdds(model: seq<Node>, i: int, j: nat, k: nat)
    requires InModel(model, Above(model, i, j))
    ensures Above(model, i, j + k) == Above(model, Above(model, i, j), k)
  {
    if k > 0 {
      AboveAdds(model, i, j, k - 1);
    }
  }

  /** A node whose walk leaves the model is not on a parent loop. */
  lemma {:induction false} GroundedIsOffLoop(model: seq<Node>, i: int, k: nat)
    requires InModel(model, i) && LeavesAfter(model, i, k)
    ensures !OnLoop(model, i)
    decreases k
  {
    if turn: nat :| turn > 0 && Above(model, i, turn) == i {
      if turn <= k {
        AboveAdds(model, i, turn, k - turn);
        GroundedIsOffLoop(model, i, k - turn);
      } else {
        StaysOutside(model, i, k, turn);
      }
    }
  }

  lemma {:induction false} StaysOutside(model: seq<Node>, i: int, k: nat, m: nat)
    requires k <= m && LeavesAfter(model, i, k)
    ensures LeavesAfter(model, i, m)
  {
    if k < m {
      StaysOutside(model, i, k, m - 1);
    }
  }

  /** Snapshots that list parents first are forests. */
  lemma {:induction false} ParentsFirstIsForest(model: seq<Node>, i: int)
    requires forall j :: 0 <= j < |model| ==> model[j].parent < j
    ensures Grounded(model, i)
    decreases if i < 0 then 0 else i + 1
  {
    if !InModel(model, i) {
      assert LeavesAfter(model, i, 0);
    } else {
      ParentsFirstIsForest(model, model[i].parent);
      var k: nat :| LeavesAfter(model, model[i].parent, k);
      AboveFromParent(model, i, k);
      assert LeavesAfter(model, i, k + 1);
    }
  }

  // ------------------------------------------- what the fold says of a chain

  /** The own opacities of the chain from `i`, multiplied. */
  function ChainOpacity(model: seq<Node>, i: int, k: nat): real
    decreases k
  {
    if k == 0 || !InModel(model, i) then 1.0
    else ChainOpacity(model, model[i].parent, k - 1) * OwnOpacity(model[i].style)
  }

  predicate ClipAndHideAt(model: seq<Node>, state: State, i: int, j: nat) {
    var a := Above(model, i, j);
    InModel(model, a) ==> WithinClips(state.clip, model[a]) && (!state.blocked ==> !Hides(model[a]))
  }

  /**
   The folded clip lies in the root clip and in every clip of the chain, an
   unblocked state has no hiding node above it, and the opacity is the product.
   */
  lemma {:induction false} FoldSeesWholeChain(model: seq<Node>, root: State, i: int, k: nat)
    requires root.opacity == 1.0
    ensures var state := Fold(model, root, i, k);
            && Inside(state.clip, root.clip)
            && Unit(state.opacity) && state.opacity == ChainOpacity(model, i, k)
            && (!state.blocked ==> !root.blocked)
            && forall j :: 0 <= j < k ==> ClipAndHideAt(model, state, i, j)
    decreases k
  {
    hide OwnOpacity;
    hide Narrowed;
    hide WithinClips;
    hide Hides;
    if k > 0 {
      if InModel(model, i) {
        var above := Fold(model, root, model[i].parent, k - 1);
        var state := Fold(model, root, i, k);
        FoldSeesWholeChain(model, root, model[i].parent, k - 1);
        ExtendedDescends(above, model[i]);
        forall j | 0 <= j < k
          ensures ClipAndHideAt(model, state, i, j)
        {
          if j == 0 {
            assert Above(model, i, 0) == i;
          } else {
            AboveFromParent(model, i, j - 1);
            assert ClipAndHideAt(model, above, model[i].parent, j - 1);
            if InModel(model, Above(model, i, j)) {
              InsideKeepsClips(state.clip, above.clip, model[Above(model, i, j)]);
            }
          }
        }
      } else {
        forall j | 0 <= j < k
          ensures ClipAndHideAt(model, Fold(model, root, i, k), i, j)
        {
          assert LeavesAfter(model, i, 0);
          StaysOutside(model, i, 0, j);
        }
      }
    }
  }

  lemma InsideKeepsClips(r: Rect, outer: Rect, node: Node)
    requires Inside(r, outer) && WithinClips(outer, node)
    ensures WithinClips(r, node)
  {
  }

  // ------------------------------------------------------------ the evaluator

  function RootState(viewport: Bounds): State {
    State(false, 1.0, Area(viewport))
  }

  /** An entry extends its parent's entry, or the root state when there is no parent or the links loop. */
  ghost predicate Justified(model: seq<Node>, root: State, table: seq<Option<State>>, i: int)
    requires |table| == |model| && InModel(model, i) && table[i].Some?
  {
    var parent := model[i].parent;
    || (InModel(model, parent) && table[parent].Some? && table[i].value == Extended(table[parent].value, model[i]))
    || ((!InModel(model, parent) || OnLoop(model, i)) && table[i].value == Extended(root, model[i]))
  }

  ghost predicate Table(model: seq<Node>, root: State, table: seq<Option<State>>) {
    && |table| == |model|
    && forall i :: 0 <= i < |model| && table[i].Some? ==> Justified(model, root, table, i)
  }

  /** On a grounded node every such table holds the top-down state, in whatever order it was filled. */
  lemma {:induction false} TableIsTopDown(model: seq<Node>, root: State, table: seq<Option<State>>, i: int, k: nat)
    requires Table(model, root, table) && InModel(model, i) && table[i].Some? && LeavesAfter(model, i, k)
    ensures Grounded(model, i) && table[i].value == TopDown(model, root, i)
    decreases k
  {
    assert Above(model, i, 0) == i;
    assert Justified(model, root, table, i);
    GroundedIsOffLoop(model, i, k);
    TopDownUnfolds(model, root, i);
    var parent := model[i].parent;
    if InModel(model, parent) {
      AboveFromParent(model, i, k - 1);
      TableIsTopDown(model, root, table, parent, k - 1);
    } else {
      TopDownUnfolds(model, root, parent);
    }
  }

  lemma FillKeepsTable(model: seq<Node>, root: State, table: seq<Option<State>>, i: int, state: State)
    requires Table(model, root, table) && InModel(model, i) && table[i].None?
    requires Justified(model, root, table[i := Some(state)], i)
    ensures Table(model, root, table[i := Some(state)])
  {
    var filled := table[i := Some(state)];
    forall j | 0 <= j < |model| && filled[j].Some?
      ensures Justified(model, root, filled, j)
    {
      if j != i {
        assert Justified(model, root, table, j);
      }
    }
  }

  predicate LinkAt(model: seq<Node>, path: seq<int>, k: nat) {
    k + 1 < |path| && InModel(model, path[k]) && model[path[k]].parent == path[k + 1]
  }

  /** Indexes of the model, each the parent of the one before, none twice. */
  ghost predicate Trail(model: seq<Node>, path: seq<int>) {
    && (forall k :: 0 <= k < |path| ==> InModel(model, path[k]))
    && (forall j, k :: 0 <= j < k < |path| ==> path[j] != path[k])
    && forall k :: 0 <= k < |path| - 1 ==> LinkAt(model, path, k)
  }

  lemma {:induction false} TrailGoesUp(model: seq<Node>, path: seq<int>, j: nat, k: nat)
    requires Trail(model, path) && j <= k < |path|
    ensures Above(model, path[j], k - j) == path[k]
    decreases k
  {
    if j < k {
      TrailGoesUp(model, path, j, k - 1);
      assert LinkAt(model, path, k - 1);
    }
  }

  lemma TrailEndsOnLoop(model: seq<Node>, path: seq<int>, j: nat)
    requires Trail(model, path) && j < |path| && model[path[|path| - 1]].parent == path[j]
    ensures OnLoop(model, path[|path| - 1])
  {
    var last := path[|path| - 1];
    TrailGoesUp(model, path, j, |path| - 1);
    assert Above(model, last, 0) == last;
    assert Above(model, last, 1) == path[j];
    AboveAdds(model, last, 1, |path| - 1 - j);
    assert Above(model, last, |path| - j) == last;
  }

  lemma TrailGrows(model: seq<Node>, path: seq<int>, i: int)
    requires Trail(model, path) && InModel(model, i) && i !in path
    requires path != [] ==> model[path[|path| - 1]].parent == i
    ensures Trail(model, path + [i])
  {
    var longer := path + [i];
    forall k | 0 <= k < |longer| - 1
      ensures LinkAt(model, longer, k)
    {
      if k < |path| - 1 {
        assert LinkAt(model, path, k);
      }
    }
  }

  predicate Filled(table: seq<Option<State>>, i: int) {
    0 <= i < |table| && table[i].Some?
  }

  ghost function Indexes(n: nat): (r: set<int>)
    ensures forall i :: i in r <==> 0 <= i < n
  {
    if n == 0 then {} else Indexes(n - 1) + {n - 1}
  }

  ghost predicate FilledBelow(table: seq<Option<State>>, n: int) {
    forall i :: 0 <= i < n ==> Filled(table, i)
  }

  lemma KeepsFilled(earlier: seq<Option<State>>, later: seq<Option<State>>, n: int)
    requires Keeps(earlier, later) && FilledBelow(earlier, n)
    ensures FilledBelow(later, n)
  {
    forall i | 0 <= i < n
      ensures Filled(later, i)
    {
      assert Filled(earlier, i);
    }
  }

  /** `later` has every entry of `earlier`, unchanged. */
  ghost predicate Keeps(earlier: seq<Option<State>>, later: seq<Option<State>>) {
    && |earlier| == |later|
    && forall i :: 0 <= i < |earlier| && earlier[i].Some? ==> later[i] == earlier[i]
  }

  /** Where the downward loop starts: the state that the last index of the trail extends. */
  ghost predicate Inherits(model: seq<Node>, root: State, table: seq<Option<State>>, last: int, inherited: State)
    requires |table| == |model| && InModel(model, last)
  {
    var parent := model[last].parent;
    if InModel(model, parent) && table[parent].Some? then inherited == table[parent].value
    else inherited == root && (!InModel(model, parent) || OnLoop(model, last))
  }

  class Evaluator {
    const model: seq<Node>
    const root: State
    const states: array<Option<State>>
    const visitGeneration: array<nat>
    var generation: nat

    ghost predicate Valid()
      reads this, states, visitGeneration
    {
      && states.Length == visitGeneration.Length == |model|
      && Table(model, root, states[..])
      && forall i :: 0 <= i < |model| ==> visitGeneration[i] <= generation
    }

    /** Fills the table index by index; the generation number stays within the model's length. */
    constructor (model: seq<Node>, viewport: Bounds)
      ensures Valid() && this.model == model && root == RootState(viewport)
      ensures fresh(states) && fresh(visitGeneration)
      ensures FilledBelow(states[..], |model|)
      ensures generation <= |model|
    {
      this.model := model;
      root := RootState(viewport);
      states := new Option<State>[|model|](i => None);
      visitGeneration := new nat[|model|](i => 0);
      generation := 0;
      new;
      for index := 0 to |model|
        invariant Valid() && generation <= index
        invariant FilledBelow(states[..], index)
        modifies states, visitGeneration, `generation
      {
        ghost var earlier := states[..];
        EnsureState(index);
        KeepsFilled(earlier, states[..], index);
      }
    }

    /** Fills the entry of `startIndex` and of the unfilled ancestors on the way; no entry changes. */
    method EnsureState(startIndex: nat)
      requires Valid() && startIndex < |model|
      modifies states, visitGeneration, `generation
      ensures Valid() && Filled(states[..], startIndex) && Keeps(old(states[..]), states[..])
      ensures old(generation) <= generation <= old(generation) + 1
    {
      if states[startIndex].Some? {
        return;
      }
      generation := generation + 1;
      var path := MarkTrail(startIndex);
      var last := path[|path| - 1];
      var parent := model[last].parent;
      var inherited := if 0 <= parent < |model| && states[parent].Some? then states[parent].value else root;
      FillTrail(path, inherited);
    }

    /** The upward loop: unfilled indexes from `startIndex`, until a filled one, one met before, or the end. */
    method MarkTrail(startIndex: nat) returns (path: seq<int>)
      requires states.Length == visitGeneration.Length == |model| && startIndex < |model|
      requires Table(model, root, states[..]) && states[startIndex].None?
      requires forall i :: 0 <= i < |model| ==> visitGeneration[i] < generation
      modifies visitGeneration
      ensures forall i :: 0 <= i < |model| ==> visitGeneration[i] <= generation
      ensures Trail(model, path) && path != [] && path[0] == startIndex
      ensures forall k :: 0 <= k < |path| ==> states[path[k]].None?
      ensures var last := path[|path| - 1];
              var parent := model[last].parent;
              InModel(model, parent) && states[parent].None? ==> OnLoop(model, last)
    {
      path := [];
      var currentIndex: int := startIndex;
      ghost var unseen := Indexes(|model|);
      while && 0 <= currentIndex < |model| && states[currentIndex].None?
            && visitGeneration[currentIndex] != generation
        invariant Trail(model, path)
        invariant path == [] ==> currentIndex == startIndex
        invariant path != [] ==> path[0] == startIndex && model[path[|path| - 1]].parent == currentIndex
        invariant forall k :: 0 <= k < |path| ==> states[path[k]].None?
        invariant forall i :: 0 <= i < |model| ==>
                    visitGeneration[i] <= generation && (visitGeneration[i] == generation <==> i in path)
        invariant forall i :: 0 <= i < |model| ==> (i in unseen <==> i !in path)
        decreases unseen
      {
        TrailGrows(model, path, currentIndex);
        visitGeneration[currentIndex] := generation;
        unseen := unseen - {currentIndex};
        path := path + [currentIndex];
        currentIndex := model[currentIndex].parent;
      }
      if 0 <= currentIndex < |model| && states[currentIndex].None? {
        var j :| 0 <= j < |path| && path[j] == currentIndex;
        TrailEndsOnLoop(model, path, j);
      }
    }

    /** The downward loop: each index of the trail extends the one above it. */
    method FillTrail(path: seq<int>, start: State)
      requires states.Length == |model| && Table(model, root, states[..])
      requires Trail(model, path) && path != []
      requires forall k :: 0 <= k < |path| ==> states[path[k]].None?
      requires Inherits(model, root, states[..], path[|path| - 1], start)
      modifies states
      ensures Table(model, root, states[..]) && Keeps(old(states[..]), states[..])
      ensures Filled(states[..], path[0])
    {
      var inherited := start;
      var index := |path|;
      while index > 0
        invariant 0 <= index <= |path|
        invariant Table(model, root, states[..]) && Keeps(old(states[..]), states[..])
        invariant forall k :: 0 <= k < index ==> states[path[k]].None?
        invariant index < |path| ==> states[path[index]] == Some(inherited)
        invariant index == |path| ==> inherited == start && states[..] == old(states[..])
      {
        index := index - 1;
        var position := path[index];
        ghost var table := states[..];
        var extended := Extend(inherited, model[position]);
        if index + 1 < |path| {
          assert LinkAt(model, path, index);
        }
        assert Justified(model, root, table[position := Some(extended)], position);
        FillKeepsTable(model, root, table, position, extended);
        states[position] := Some(extended);
        assert states[..] == table[position := Some(extended)];
        inherited := extended;
      }
    }

    /** The answer for one node of the model. */
    method Intersection(index: int) returns (shown: Option<Shown>)
      requires Valid() && FilledBelow(states[..], |model|)
      ensures !InModel(model, index) ==> shown == None
      ensures InModel(model, index) ==>
                Filled(states[..], index) && shown == Visible(model[index], states[..][index].value)
    {
      if index < 0 || index >= |model| {
        return None;
      }
      var node := model[index];
      if node.bounds.None? || node.bounds.value.width <= 0.0 || node.bounds.value.height <= 0.0 {
        return None;
      }
      var bounds := node.bounds.value;
      assert Filled(states[..], index);
      var state := states[index].value;
      if state.blocked || state.opacity < MIN_EFFECTIVE_OPACITY || node.style.invisible {
        return None;
      }
      var left := Max(bounds.x, state.clip.left);
      var top := Max(bounds.y, state.clip.top);
      var right := Min(bounds.x + bounds.width, state.clip.right);
      var bottom := Min(bounds.y + bounds.height, state.clip.bottom);
      if right <= left || bottom <= top {
        return None;
      }
      return Some(Shown(Rect(left, top, right, bottom), state.opacity));
    }
  }

  function Visible(node: Node, state: State): Option<Shown> {
    if node.bounds.None? || Empty(Area(node.bounds.value)) || state.blocked || state.opacity < MIN_EFFECTIVE_OPACITY
       || node.style.invisible || Empty(Meet(Area(node.bounds.value), state.clip)) then None
    else Some(Shown(Meet(Area(node.bounds.value), state.clip), state.opacity))
  }

  predicate PassesAt(model: seq<Node>, r: Rect, i: int, j: nat) {
    var a := Above(model, i, j);
    InModel(model, a) ==> WithinClips(r, model[a]) && !Hides(model[a])
  }

  /** A non-empty rectangle in the node's bounds and the viewport that every node of the chain lets through. */
  ghost predicate FitsChain(model: seq<Node>, viewport: Bounds, r: Rect, i: int, k: nat)
    requires InModel(model, i)
  {
    && !Empty(r) && Inside(r, Area(viewport))
    && model[i].bounds.Some? && Inside(r, Area(model[i].bounds.value))
    && forall j :: 0 <= j < k ==> PassesAt(model, r, i, j)
  }

  /**
   A returned rectangle is not empty and lies in the node's bounds, in the
   viewport and in every clip above; nothing above hides it; the opacity is the
   product along the chain and reaches the floor.
   */
  lemma ShownIsVisible(model: seq<Node>, viewport: Bounds, table: seq<Option<State>>, i: int, k: nat)
    requires Table(model, RootState(viewport), table) && InModel(model, i) && table[i].Some?
    requires LeavesAfter(model, i, k)
    ensures var shown := Visible(model[i], table[i].value);
            shown.Some? ==>
              && FitsChain(model, viewport, shown.value.rect, i, k)
              && shown.value.opacity == ChainOpacity(model, i, k) && MIN_EFFECTIVE_OPACITY <= shown.value.opacity <= 1.0
  {
    hide OwnOpacity;
    hide Narrowed;
    hide WithinClips;
    hide Hides;
    var root := RootState(viewport);
    TableIsTopDown(model, root, table, i, k);
    var m: nat :| LeavesAfter(model, i, m) && TopDown(model, root, i) == Fold(model, root, i, m);
    FoldSettles(model, root, i, k, m);
    FoldSeesWholeChain(model, root, i, k);
    var state := table[i].value;
    var shown := Visible(model[i], state);
    if shown.Some? {
      forall j | 0 <= j < k
        ensures PassesAt(model, shown.value.rect, i, j)
      {
        assert ClipAndHideAt(model, state, i, j);
        if InModel(model, Above(model, i, j)) {
          InsideKeepsClips(shown.value.rect, state.clip, model[Above(model, i, j)]);
        }
      }
    }
  }

  /** A rectangle that the whole chain lets through survives the fold. */
  lemma {:induction false} FoldLetsThrough(model: seq<Node>, root: State, r: Rect, i: int, k: nat)
    requires !Empty(r) && !root.blocked && Inside(r, root.clip)
    requires forall j :: 0 <= j < k ==> PassesAt(model, r, i, j)
    ensures Inside(r, Fold(model, root, i, k).clip) && !Fold(model, root, i, k).blocked
    decreases k
  {
    hide OwnOpacity;
    hide WithinClips;
    hide Hides;
    if k > 0 && InModel(model, i) {
      var parent := model[i].parent;
      forall j | 0 <= j < k - 1
        ensures PassesAt(model, r, parent, j)
      {
        AboveFromParent(model, i, j);
        assert PassesAt(model, r, i, j + 1);
      }
      FoldLetsThrough(model, root, r, parent, k - 1);
      assert Above(model, i, 0) == i && PassesAt(model, r, i, 0);
      ExtendedKeeps(Fold(model, root, parent, k - 1), model[i], r);
    }
  }

  lemma ExtendedKeeps(parent: State, node: Node, r: Rect)
    requires !Empty(r) && !parent.blocked && Inside(r, parent.clip) && WithinClips(r, node) && !Hides(node)
    ensures Inside(r, Extended(parent, node).clip) && !Extended(parent, node).blocked
  {
    NarrowedIsLargest(parent.clip, node, r);
  }

  /**
   Nothing visible is missed: any rectangle the chain lets through lies in the
   returned one, which exists when the node is not invisible and the opacity
   reaches the floor.
   */
  lemma ShownIsLargest(
    model: seq<Node>, viewport: Bounds, table: seq<Option<State>>, r: Rect, i: int, k: nat)
    requires Table(model, RootState(viewport), table) && InModel(model, i) && table[i].Some?
    requires LeavesAfter(model, i, k)
    requires FitsChain(model, viewport, r, i, k) && !model[i].style.invisible
    requires ChainOpacity(model, i, k) >= MIN_EFFECTIVE_OPACITY
    ensures var shown := Visible(model[i], table[i].value); shown.Some? && Inside(r, shown.value.rect)
  {
    hide OwnOpacity;
    hide Narrowed;
    hide WithinClips;
    hide Hides;
    var root := RootState(viewport);
    TableIsTopDown(model, root, table, i, k);
    var m: nat :| LeavesAfter(model, i, m) && TopDown(model, root, i) == Fold(model, root, i, m);
    FoldSettles(model, root, i, k, m);
    FoldSeesWholeChain(model, root, i, k);
    FoldLetsThrough(model, root, r, i, k);
  }
}

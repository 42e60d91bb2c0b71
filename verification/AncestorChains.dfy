/**
 Ancestor walks along parent links that may loop, and the memo table that the
 capture probe fills while walking. A walk looks for the first node of the chain
 that is a stop; each stop carries the value the walk returns.
 */
module AncestorChains {
  import opened Wrappers

  /** The k-th ancestor of `n`, if the links go that far. */
  ghost function Up<N>(parent: map<N, N>, n: N, k: nat): Option<N> {
    if k == 0 then Some(n)
    else match Up(parent, n, k - 1)
         case None => None
         case Some(m) => if m in parent then Some(parent[m]) else None
  }

  /** The k-th ancestor is a stop and no nearer one is. */
  ghost predicate StopsAt<N, T>(parent: map<N, N>, stops: map<N, T>, n: N, k: nat) {
    && Up(parent, n, k).Some?
    && Up(parent, n, k).value in stops
    && forall j :: 0 <= j < k && Up(parent, n, j).Some? ==> Up(parent, n, j).value !in stops
  }

  /** The value of the nearest stop on the chain from `n` (itself included): no table, no visited set, no walk. */
  ghost function NearestStop<N, T>(parent: map<N, N>, stops: map<N, T>, n: N): Option<T> {
    if exists k: nat :: StopsAt(parent, stops, n, k) then
      var k: nat :| StopsAt(parent, stops, n, k);
      Some(stops[Up(parent, n, k).value])
    else
      None
  }

  lemma {:induction false} UpFromParent<N>(parent: map<N, N>, n: N, k: nat)
    requires n in parent
    ensures Up(parent, n, k + 1) == Up(parent, parent[n], k)
  {
    if k > 0 {
      UpFromParent(parent, n, k - 1);
    } else {
      assert Up(parent, n, 0) == Some(n);
    }
  }

  lemma {:induction false} UpEndsForGood<N>(parent: map<N, N>, n: N, j: nat, k: nat)
    requires j <= k && Up(parent, n, k).Some?
    ensures Up(parent, n, j).Some?
  {
    if j < k {
      UpEndsForGood(parent, n, j, k - 1);
    }
  }

  lemma StopsAtOnce<N, T>(parent: map<N, N>, stops: map<N, T>, n: N, j: nat, k: nat)
    requires StopsAt(parent, stops, n, j) && StopsAt(parent, stops, n, k)
    ensures j == k
  {
  }

  lemma {:induction false} SomeStopIsFirst<N, T>(parent: map<N, N>, stops: map<N, T>, n: N, k: nat)
    requires Up(parent, n, k).Some? && Up(parent, n, k).value in stops
    ensures exists j: nat :: j <= k && StopsAt(parent, stops, n, j)
  {
    if !StopsAt(parent, stops, n, k) {
      var j :| 0 <= j < k && Up(parent, n, j).Some? && Up(parent, n, j).value in stops;
      SomeStopIsFirst(parent, stops, n, j);
    }
  }

  /** `NearestStop` is decided by the node itself or else by its parent. */
  lemma NearestStopUnfolds<N, T>(parent: map<N, N>, stops: map<N, T>, n: N)
    ensures NearestStop(parent, stops, n) ==
            if n in stops then Some(stops[n])
            else if n in parent then NearestStop(parent, stops, parent[n]) else None
  {
    assert Up(parent, n, 0) == Some(n);
    if n in stops {
      assert StopsAt(parent, stops, n, 0);
      forall k: nat | StopsAt(parent, stops, n, k)
        ensures k == 0
      {
        StopsAtOnce(parent, stops, n, 0, k);
      }
    } else if n in parent {
      forall k: nat
        ensures StopsAt(parent, stops, n, k + 1) <==> StopsAt(parent, stops, parent[n], k)
        ensures Up(parent, n, k + 1) == Up(parent, parent[n], k)
      {
        forall j: nat {
          UpFromParent(parent, n, j);
        }
        if StopsAt(parent, stops, n, k + 1) {
          forall j | 0 <= j < k && Up(parent, parent[n], j).Some?
            ensures Up(parent, parent[n], j).value !in stops
          {
            assert Up(parent, n, j + 1).value !in stops;
          }
        }
        if StopsAt(parent, stops, parent[n], k) {
          forall j | 0 <= j < k + 1 && Up(parent, n, j).Some?
            ensures Up(parent, n, j).value !in stops
          {
            if j > 0 {
              assert Up(parent, parent[n], j - 1).value !in stops;
            }
          }
        }
      }
      if k: nat :| StopsAt(parent, stops, n, k) {
        assert k != 0;
        assert StopsAt(parent, stops, parent[n], k - 1);
        forall j: nat | StopsAt(parent, stops, n, j) { StopsAtOnce(parent, stops, n, j, k); }
        forall j: nat | StopsAt(parent, stops, parent[n], j) { StopsAtOnce(parent, stops, parent[n], j, k - 1); }
      } else {
        assert forall k: nat {:trigger StopsAt(parent, stops, parent[n], k)} :: !StopsAt(parent, stops, parent[n], k);
      }
    } else {
      forall k: nat | StopsAt(parent, stops, n, k)
        ensures false
      {
        if k > 0 {
          UpEndsForGood(parent, n, 1, k);
        }
      }
    }
  }

  /** A trail of nodes, each the parent of the one before, none of them a stop. */
  ghost predicate Trail<N, T>(parent: map<N, N>, stops: map<N, T>, path: seq<N>) {
    && (forall i :: 0 <= i < |path| ==> path[i] !in stops)
    && forall i :: 0 <= i < |path| - 1 ==> LinkAt(parent, path, i)
  }

  ghost predicate LinkAt<N>(parent: map<N, N>, path: seq<N>, i: nat) {
    i + 1 < |path| && Link(parent, path[i], path[i + 1])
  }

  lemma TrailExtends<N, T>(parent: map<N, N>, stops: map<N, T>, path: seq<N>, n: N)
    requires Trail(parent, stops, path) && n !in stops
    requires path != [] ==> Link(parent, path[|path| - 1], n)
    ensures Trail(parent, stops, path + [n])
  {
    forall i | 0 <= i < |path|
      ensures LinkAt(parent, path + [n], i)
    {
      assert i < |path| - 1 ==> LinkAt(parent, path, i);
    }
  }

  ghost predicate Link<N>(parent: map<N, N>, n: N, m: N) {
    n in parent && parent[n] == m
  }

  lemma {:induction false} LoopStaysInside<N, T>(parent: map<N, N>, stops: map<N, T>, path: seq<N>, i: nat, k: nat)
    requires Trail(parent, stops, path) && i < |path|
    requires path[|path| - 1] in parent && parent[path[|path| - 1]] in path
    ensures Up(parent, path[i], k).Some? && Up(parent, path[i], k).value in path
  {
    if k > 0 {
      LoopStaysInside(parent, stops, path, i, k - 1);
      var j :| 0 <= j < |path| && path[j] == Up(parent, path[i], k - 1).value;
      assert j < |path| - 1 ==> LinkAt(parent, path, j);
    }
  }

  /** A trail that runs back into itself has no stop anywhere above it. */
  lemma LoopHasNoStop<N, T>(parent: map<N, N>, stops: map<N, T>, path: seq<N>, i: nat)
    requires Trail(parent, stops, path) && i < |path|
    requires path[|path| - 1] in parent && parent[path[|path| - 1]] in path
    ensures NearestStop(parent, stops, path[i]) == None
  {
    forall k: nat | StopsAt(parent, stops, path[i], k)
      ensures false
    {
      LoopStaysInside(parent, stops, path, i, k);
    }
  }

  /** The plain walk: upwards from `n` until a stop, the end of the links or a node already seen. */
  ghost function WalkUp<N, T>(parent: map<N, N>, stops: map<N, T>, n: N, seen: set<N>): Option<T>
    decreases parent.Keys - seen
  {
    if n in seen then None
    else if n in stops then Some(stops[n])
    else if n in parent then WalkUp(parent, stops, parent[n], seen + {n})
    else None
  }

  ghost function FirstStop<N, T>(parent: map<N, N>, stops: map<N, T>, n: N): Option<T> {
    WalkUp(parent, stops, n, {})
  }

  lemma {:induction false} WalkContinuesTrail<N, T>(
    parent: map<N, N>, stops: map<N, T>, path: seq<N>, n: N, seen: set<N>)
    requires Trail(parent, stops, path) && forall m :: m in seen <==> m in path
    requires path != [] ==> Link(parent, path[|path| - 1], n)
    ensures WalkUp(parent, stops, n, seen) == NearestStop(parent, stops, n)
    decreases parent.Keys - seen
  {
    NearestStopUnfolds(parent, stops, n);
    if n in seen {
      var i :| 0 <= i < |path| && path[i] == n;
      LoopHasNoStop(parent, stops, path, i);
    } else if n !in stops && n in parent {
      TrailExtends(parent, stops, path, n);
      WalkContinuesTrail(parent, stops, path + [n], parent[n], seen + {n});
    }
  }

  /** The plain walk finds the nearest stop, and gives up only when the chain has none, also when links loop. */
  lemma FirstStopIsNearest<N, T>(parent: map<N, N>, stops: map<N, T>, n: N)
    ensures FirstStop(parent, stops, n) == NearestStop(parent, stops, n)
  {
    WalkContinuesTrail(parent, stops, [], n, {});
  }

  lemma FirstStopUnfolds<N, T>(parent: map<N, N>, stops: map<N, T>, n: N)
    ensures FirstStop(parent, stops, n) ==
            if n in stops then Some(stops[n])
            else if n in parent then FirstStop(parent, stops, parent[n]) else None
  {
    FirstStopIsNearest(parent, stops, n);
    NearestStopUnfolds(parent, stops, n);
    if n in parent {
      FirstStopIsNearest(parent, stops, parent[n]);
    }
  }

  /** One memo table: the `physicalModals` or the `nearestPopup` map with its lookup closure. */
  class AncestorTable<N(==), T(==)> {
    const parent: map<N, N>
    const stops: map<N, T>
    var memo: map<N, Option<T>>

    /** Every remembered answer is the answer of the plain walk. */
    ghost predicate Valid()
      reads this
    {
      forall n :: n in memo ==> memo[n] == FirstStop(parent, stops, n)
    }

    constructor (parent: map<N, N>, stops: map<N, T>)
      ensures Valid() && memo == map[]
      ensures this.parent == parent && this.stops == stops
    {
      this.parent, this.stops := parent, stops;
      memo := map[];
    }

    /** The memoised lookup answers exactly as the plain walk, also when parent links loop. */
    method Nearest(start: Option<N>) returns (result: Option<T>)
      requires Valid()
      modifies this
      ensures Valid()
      ensures result == if start.Some? then FirstStop(parent, stops, start.value) else None
      ensures old(memo.Keys) <= memo.Keys
      ensures forall n :: n in memo && n !in old(memo) ==> n !in stops
    {
      var path: seq<N> := [];
      var seen: set<N> := {};
      var current := start;
      ghost var answered := false;
      result := None;
      while current.Some? && current.value !in seen
        invariant !answered && result == None && memo == old(memo)
        invariant start.None? ==> current.None? && path == []
        invariant start.Some? && path == [] ==> current == start
        invariant Trail(parent, stops, path)
        invariant forall n :: n in seen <==> n in path
        invariant path != [] ==> path[0] == start.value && current == Parent(path[|path| - 1])
        invariant forall i :: 0 <= i < |path| ==> FirstStop(parent, stops, path[i]) == Answer(current)
        invariant current.Some? ==> current.value in parent.Keys + parent.Values + {start.value}
        decreases if start.Some? then parent.Keys + parent.Values + {start.value} - seen else {}
      {
        var node := current.value;
        FirstStopUnfolds(parent, stops, node);
        assert path != [] ==> Link(parent, path[|path| - 1], node);
        seen := seen + {node};
        if node in memo {
          result, answered := memo[node], true;
          break;
        }
        if node in stops {
          result, answered := Some(stops[node]), true;
          break;
        }
        TrailExtends(parent, stops, path, node);
        path := path + [node];
        current := if node in parent then Some(parent[node]) else None;
      }
      if !answered && current.Some? {
        ghost var i :| 0 <= i < |path| && path[i] == current.value;
        LoopHasNoStop(parent, stops, path, i);
        FirstStopIsNearest(parent, stops, path[i]);
      }
      assert result == Answer(current);
      for i := 0 to |path|
        invariant Valid()
        invariant old(memo.Keys) <= memo.Keys
        invariant forall n :: n in memo && n !in old(memo) ==> n !in stops
      {
        memo := memo[path[i] := result];
      }
    }

    ghost function Parent(n: N): Option<N> {
      if n in parent then Some(parent[n]) else None
    }

    ghost function Answer(n: Option<N>): Option<T> {
      if n.Some? then FirstStop(parent, stops, n.value) else None
    }
  }
}

/**
 The explicit-stack depth-first search that marks every popup id from which a
 cycle of the ownership graph can be reached.
 */
module CycleSearch {

  type Graph<K(==)> = map<K, seq<K>>

  ghost predicate ClosedGraph<K>(graph: Graph<K>) {
    forall k, s :: k in graph && s in graph[k] ==> s in graph
  }

  ghost predicate Edge<K>(graph: Graph<K>, k: K, s: K) {
    k in graph && s in graph[k]
  }

  /** Step `i` of `p` follows an edge. */
  ghost predicate Follows<K>(graph: Graph<K>, p: seq<K>, i: nat) {
    i + 1 < |p| && Edge(graph, p[i], p[i + 1])
  }

  /** A non-empty walk along successor edges. */
  ghost predicate Walk<K>(graph: Graph<K>, p: seq<K>) {
    && p != []
    && (forall i :: 0 <= i < |p| ==> p[i] in graph)
    && forall i :: 0 <= i < |p| - 1 ==> Follows(graph, p, i)
  }

  ghost predicate Repeats<K>(p: seq<K>) {
    exists i, j :: 0 <= i < j < |p| && p[i] == p[j]
  }

  /** Some walk from `k` comes back to an id it already visited. */
  ghost predicate ReachesCycle<K(!new)>(graph: Graph<K>, k: K) {
    exists p :: Walk(graph, p) && p[0] == k && Repeats(p)
  }

  datatype Frame<K> = Frame(id: K, next: nat, unsafe: bool)

  ghost function Ids<K>(stack: seq<Frame<K>>): (ids: seq<K>)
    ensures |ids| == |stack|
  {
    seq(|stack|, i requires 0 <= i < |stack| => stack[i].id)
  }

  ghost function Elements<K>(s: seq<K>): set<K> {
    set i | 0 <= i < |s| :: s[i]
  }

  /**
   What the search knows between two roots: marked ids really reach a cycle, and
   the unmarked finished ids can be listed so that all successors come earlier.
   */
  ghost predicate Settled<K(!new)>(graph: Graph<K>, checked: set<K>, cyclic: set<K>, safe: seq<K>) {
    && cyclic <= checked <= graph.Keys
    && (forall k :: k in cyclic ==> ReachesCycle(graph, k))
    && (forall k :: k in checked && k !in cyclic <==> k in safe)
    && (forall i, j :: 0 <= i < j < |safe| ==> safe[i] != safe[j])
    && forall i, s :: 0 <= i < |safe| && s in graph[safe[i]] ==> s in safe[..i]
  }

  lemma PrependEdge<K(!new)>(graph: Graph<K>, k: K, s: K)
    requires k in graph && s in graph[k] && ReachesCycle(graph, s)
    ensures ReachesCycle(graph, k)
  {
    var p :| Walk(graph, p) && p[0] == s && Repeats(p);
    var i, j :| 0 <= i < j < |p| && p[i] == p[j];
    var q := [k] + p;
    assert q[i + 1] == q[j + 1];
    forall m | 0 <= m < |q| - 1
      ensures Follows(graph, q, m)
    {
      assert m > 0 ==> Follows(graph, p, m - 1);
    }
    assert Walk(graph, q);
  }

  lemma WalkSuffix<K>(graph: Graph<K>, p: seq<K>, i: nat)
    requires Walk(graph, p) && i < |p|
    ensures Walk(graph, p[i..])
  {
    forall m | 0 <= m < |p[i..]| - 1
      ensures Follows(graph, p[i..], m)
    {
      assert Follows(graph, p, i + m);
    }
  }

  /** A walk that goes on along an edge. */
  lemma WalkExtends<K>(graph: Graph<K>, p: seq<K>, s: K)
    requires s in graph && (p != [] ==> Walk(graph, p) && Edge(graph, p[|p| - 1], s))
    ensures Walk(graph, p + [s])
  {
    forall m | 0 <= m < |p|
      ensures Follows(graph, p + [s], m)
    {
      assert m < |p| - 1 ==> Follows(graph, p, m);
    }
  }

  /** The marks are exactly the ids that reach a cycle. */
  ghost predicate MarksExactly<K(!new)>(graph: Graph<K>, cyclic: set<K>) {
    forall k :: k in cyclic <==> k in graph && ReachesCycle(graph, k)
  }

  /** From an id that is not marked no edge leads to a marked one. */
  lemma UnmarkedAreClosed<K(!new)>(graph: Graph<K>, cyclic: set<K>, k: K, s: K)
    requires ClosedGraph(graph) && MarksExactly(graph, cyclic)
    requires k in graph && k !in cyclic && Edge(graph, k, s)
    ensures s in graph && s !in cyclic
  {
    if ReachesCycle(graph, s) {
      PrependEdge(graph, k, s);
    }
  }

  lemma {:induction false} WalkDescends<K(!new)>(
    graph: Graph<K>, checked: set<K>, cyclic: set<K>, safe: seq<K>, p: seq<K>, i: nat, j: nat)
    requires Settled(graph, checked, cyclic, safe)
    requires Walk(graph, p) && i < |safe| && p[0] == safe[i] && 0 < j < |p|
    ensures p[j] in safe[..i]
    decreases j
  {
    assert Follows(graph, p, 0);
    if j > 1 {
      var m :| 0 <= m < i && safe[m] == p[1];
      WalkSuffix(graph, p, 1);
      WalkDescends(graph, checked, cyclic, safe, p[1..], m, j - 1);
    }
  }

  /** An unmarked finished id reaches no cycle. */
  lemma SafeIdsReachNoCycle<K(!new)>(graph: Graph<K>, checked: set<K>, cyclic: set<K>, safe: seq<K>, k: K)
    requires Settled(graph, checked, cyclic, safe) && k in safe
    ensures !ReachesCycle(graph, k)
  {
    if ReachesCycle(graph, k) {
      var p :| Walk(graph, p) && p[0] == k && Repeats(p);
      var i, j :| 0 <= i < j < |p| && p[i] == p[j];
      var m :| 0 <= m < |safe| && safe[m] == k;
      if i > 0 {
        WalkDescends(graph, checked, cyclic, safe, p, m, i);
        m :| 0 <= m < |safe| && safe[m] == p[i];
      }
      WalkSuffix(graph, p, i);
      WalkDescends(graph, checked, cyclic, safe, p[i..], m, j - i);
      assert false;
    }
  }

  /** What frame `i` records about the edges already followed from its id. */
  ghost predicate FrameOk<K(!new)>(
    graph: Graph<K>, checked: set<K>, cyclic: set<K>, stack: seq<Frame<K>>, i: nat)
  {
    && i < |stack|
    && var frame := stack[i];
    && frame.id in graph && frame.id !in checked && frame.next <= |graph[frame.id]|
    && (frame.unsafe ==> ReachesCycle(graph, frame.id))
       // the frame above is searching the last edge followed
    && (i < |stack| - 1 ==> 0 < frame.next && graph[frame.id][frame.next - 1] == stack[i + 1].id)
    && (!frame.unsafe ==>
          forall e :: 0 <= e < (if i == |stack| - 1 then frame.next else frame.next - 1) ==>
            graph[frame.id][e] in checked && graph[frame.id][e] !in cyclic)
  }

  /** The loop invariant of `Explore`: the stack is a walk of distinct ids, exactly those being visited. */
  ghost predicate StackInvariant<K(!new)>(
    graph: Graph<K>, checked: set<K>, cyclic: set<K>, visiting: set<K>, stack: seq<Frame<K>>)
  {
    && (forall k :: k in visiting <==> k in Ids(stack))
    && (forall i, j :: 0 <= i < j < |stack| ==> Ids(stack)[i] != Ids(stack)[j])
    && forall i :: 0 <= i < |stack| ==> FrameOk(graph, checked, cyclic, stack, i)
  }

  /** An edge from the top frame to a frame of the stack closes a cycle. */
  lemma BackEdge<K(!new)>(
    graph: Graph<K>, checked: set<K>, cyclic: set<K>, visiting: set<K>, stack: seq<Frame<K>>, s: K)
    requires StackInvariant(graph, checked, cyclic, visiting, stack)
    requires stack != [] && FrameOk(graph, checked, cyclic, stack, |stack| - 1)
    requires s in visiting && s in graph[stack[|stack| - 1].id]
    ensures ReachesCycle(graph, stack[|stack| - 1].id)
  {
    var k :| 0 <= k < |stack| && Ids(stack)[k] == s;
    var p := [stack[|stack| - 1].id] + Ids(stack)[k..];
    assert p[0] == p[|p| - 1];
    assert Walk(graph, p) by {
      forall i | 0 <= i < |p|
        ensures p[i] in graph && (i < |p| - 1 ==> Follows(graph, p, i))
      {
        assert FrameOk(graph, checked, cyclic, stack, if i == 0 then |stack| - 1 else k + i - 1);
      }
    }
  }

  ghost function AfterNext<K>(stack: seq<Frame<K>>, unsafe: bool): (r: seq<Frame<K>>)
    requires stack != []
    ensures |r| == |stack|
  {
    var top := |stack| - 1;
    stack[top := Frame(stack[top].id, stack[top].next + 1, unsafe || stack[top].unsafe)]
  }

  /** Following an edge whose target is on the stack or already marked, or finished and unmarked. */
  lemma NextKeepsInvariant<K(!new)>(
    graph: Graph<K>, checked: set<K>, cyclic: set<K>, visiting: set<K>, stack: seq<Frame<K>>, unsafe: bool)
    requires StackInvariant(graph, checked, cyclic, visiting, stack)
    requires stack != [] && FrameOk(graph, checked, cyclic, stack, |stack| - 1)
    requires var top := stack[|stack| - 1];
             && top.next < |graph[top.id]|
             && if unsafe then ReachesCycle(graph, top.id)
                else graph[top.id][top.next] in checked && graph[top.id][top.next] !in cyclic
    ensures StackInvariant(graph, checked, cyclic, visiting, AfterNext(stack, unsafe))
  {
    var after := AfterNext(stack, unsafe);
    assert Ids(after) == Ids(stack);
    forall i | 0 <= i < |after|
      ensures FrameOk(graph, checked, cyclic, after, i)
    {
      assert FrameOk(graph, checked, cyclic, stack, i);
    }
  }

  /** Following an edge to an id seen for the first time. */
  lemma PushKeepsInvariant<K(!new)>(
    graph: Graph<K>, checked: set<K>, cyclic: set<K>, visiting: set<K>, stack: seq<Frame<K>>)
    requires ClosedGraph(graph) && StackInvariant(graph, checked, cyclic, visiting, stack)
    requires stack != [] && FrameOk(graph, checked, cyclic, stack, |stack| - 1)
    requires var top := stack[|stack| - 1];
             && top.next < |graph[top.id]|
             && graph[top.id][top.next] !in visiting && graph[top.id][top.next] !in checked
    ensures var top := stack[|stack| - 1];
            var parent := graph[top.id][top.next];
            StackInvariant(graph, checked, cyclic, visiting + {parent},
                           AfterNext(stack, false) + [Frame(parent, 0, false)])
  {
    var parent := graph[stack[|stack| - 1].id][stack[|stack| - 1].next];
    var after := AfterNext(stack, false) + [Frame(parent, 0, false)];
    assert Ids(after) == Ids(stack) + [parent];
    forall i | 0 <= i < |after|
      ensures FrameOk(graph, checked, cyclic, after, i)
    {
      assert i < |stack| ==> FrameOk(graph, checked, cyclic, stack, i);
    }
  }

  ghost function AfterPop<K>(stack: seq<Frame<K>>): (r: seq<Frame<K>>)
    requires stack != []
    ensures |r| == |stack| - 1
  {
    var top := |stack| - 1;
    if stack[top].unsafe && top > 0 then stack[..top][top - 1 := stack[top - 1].(unsafe := true)] else stack[..top]
  }

  /** Finishing the top frame: its verdict is recorded and passed to the frame below. */
  lemma PopKeepsInvariant<K(!new)>(
    graph: Graph<K>, checked: set<K>, cyclic: set<K>, visiting: set<K>, stack: seq<Frame<K>>)
    requires StackInvariant(graph, checked, cyclic, visiting, stack)
    requires stack != [] && FrameOk(graph, checked, cyclic, stack, |stack| - 1)
    requires var top := stack[|stack| - 1]; top.next == |graph[top.id]|
    requires cyclic <= checked
    ensures var top := stack[|stack| - 1];
            StackInvariant(graph, checked + {top.id}, if top.unsafe then cyclic + {top.id} else cyclic,
                           visiting - {top.id}, AfterPop(stack))
  {
    var top := stack[|stack| - 1];
    var after := AfterPop(stack);
    var cyclic' := if top.unsafe then cyclic + {top.id} else cyclic;
    assert Ids(stack) == Ids(after) + [top.id];
    assert forall i :: 0 <= i < |after| ==> Ids(stack)[i] == Ids(after)[i];
    assert Ids(stack)[|after|] == top.id && top.id !in Ids(after);
    forall i | 0 <= i < |after|
      ensures FrameOk(graph, checked + {top.id}, cyclic', after, i)
    {
      assert FrameOk(graph, checked, cyclic, stack, i);
      assert Ids(stack)[i] != Ids(stack)[|stack| - 1];
      if i == |after| - 1 && top.unsafe {
        PrependEdge(graph, stack[i].id, top.id);
      }
    }
  }

  /** Finishing the top frame keeps the marks exact and the finishing order topological. */
  lemma PopKeepsSettled<K(!new)>(
    graph: Graph<K>, checked: set<K>, cyclic: set<K>, stack: seq<Frame<K>>, safe: seq<K>)
    requires Settled(graph, checked, cyclic, safe)
    requires stack != [] && FrameOk(graph, checked, cyclic, stack, |stack| - 1)
    requires var top := stack[|stack| - 1]; top.next == |graph[top.id]|
    ensures var top := stack[|stack| - 1];
            if top.unsafe then Settled(graph, checked + {top.id}, cyclic + {top.id}, safe)
            else Settled(graph, checked + {top.id}, cyclic, safe + [top.id])
  {
    var top := stack[|stack| - 1];
    if !top.unsafe {
      assert top.id !in safe;
      assert forall i :: 0 <= i <= |safe| ==> (safe + [top.id])[..i] == safe[..i];
      forall s | s in graph[top.id]
        ensures s in safe
      {
        var e :| 0 <= e < |graph[top.id]| && graph[top.id][e] == s;
      }
    }
  }

  /** The search from one root, as in the loop over `owners.keys()`. */
  method Explore<K(!new)>(graph: Graph<K>, root: K, checked0: set<K>, cyclic0: set<K>, ghost safe0: seq<K>)
    returns (checked: set<K>, cyclic: set<K>, ghost safe: seq<K>)
    requires ClosedGraph(graph) && root in graph && root !in checked0
    requires Settled(graph, checked0, cyclic0, safe0)
    ensures Settled(graph, checked, cyclic, safe)
    ensures checked0 <= checked && root in checked
  {
    checked, cyclic, safe := checked0, cyclic0, safe0;
    var stack := [Frame(root, 0, false)];
    var visiting := {root};
    assert Ids(stack) == [root];
    while stack != []
      invariant Settled(graph, checked, cyclic, safe)
      invariant StackInvariant(graph, checked, cyclic, visiting, stack)
      invariant checked0 <= checked
      invariant stack != [] ==> FrameOk(graph, checked, cyclic, stack, |stack| - 1)
      invariant if stack == [] then root in checked else stack[0].id == root
      decreases graph.Keys - visiting - checked, |stack|,
                if stack == [] then 0 else |graph[stack[|stack| - 1].id]| - stack[|stack| - 1].next
    {
      var top := |stack| - 1;
      var frame := stack[top];
      ghost var unseen := graph.Keys - visiting - checked;
      if frame.next < |graph[frame.id]| {
        var parent := graph[frame.id][frame.next];
        if parent in visiting || parent in cyclic {
          if parent in visiting {
            BackEdge(graph, checked, cyclic, visiting, stack, parent);
          } else {
            PrependEdge(graph, frame.id, parent);
          }
          NextKeepsInvariant(graph, checked, cyclic, visiting, stack, true);
          stack := stack[top := frame.(next := frame.next + 1, unsafe := true)];
        } else if parent !in checked {
          PushKeepsInvariant(graph, checked, cyclic, visiting, stack);
          assert parent in unseen;
          visiting := visiting + {parent};
          stack := stack[top := frame.(next := frame.next + 1)] + [Frame(parent, 0, false)];
        } else {
          NextKeepsInvariant(graph, checked, cyclic, visiting, stack, false);
          stack := stack[top := frame.(next := frame.next + 1)];
        }
      } else {
        assert Ids(stack)[top] == frame.id;
        PopKeepsSettled(graph, checked, cyclic, stack, safe);
        PopKeepsInvariant(graph, checked, cyclic, visiting, stack);
        stack := stack[..top];
        visiting := visiting - {frame.id};
        checked := checked + {frame.id};
        if frame.unsafe {
          cyclic := cyclic + {frame.id};
          if stack != [] {
            stack := stack[top - 1 := stack[top - 1].(unsafe := true)];
          }
        } else {
          safe := safe + [frame.id];
        }
        assert graph.Keys - visiting - checked == unseen;
      }
    }
  }

  /** The whole search: a key is marked exactly when a cycle can be reached from it. */
  method MarkCyclic<K(!new)>(keys: seq<K>, graph: Graph<K>) returns (cyclic: set<K>)
    requires ClosedGraph(graph)
    requires forall k :: k in keys <==> k in graph
    ensures MarksExactly(graph, cyclic)
  {
    var checked := {};
    cyclic := {};
    ghost var safe := [];
    for n := 0 to |keys|
      invariant Settled(graph, checked, cyclic, safe)
      invariant forall i :: 0 <= i < n ==> keys[i] in checked
    {
      if keys[n] !in checked {
        checked, cyclic, safe := Explore(graph, keys[n], checked, cyclic, safe);
      }
    }
    forall k | k in graph && k !in cyclic
      ensures !ReachesCycle(graph, k)
    {
      SafeIdsReachNoCycle(graph, checked, cyclic, safe, k);
    }
  }
}

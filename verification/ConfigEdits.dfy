/**
 Batch edits of the configuration tree along dotted paths: the overlap check of a
 batch, the in-place edits, and what the check buys. Objects are maps, so the
 order of keys in a file is not seen. JSON trees share nothing, so the moving
 reference of the source is a path from the root.
 */
module ConfigEdits {
  import opened Texts
  import opened Wrappers

  type Key = string
  type Path = seq<Key>

  datatype Json =
    | Null
    | Bool(b: bool)
    | Number(n: real)
    | Text(s: string)
    | Array(items: seq<Json>)
    | Object(fields: map<Key, Json>)

  datatype Edit = Set(value: Json) | Delete

  datatype Change = Change(path: Path, edit: Edit)

  const EMPTY_OBJECT: Json := Object(map[])

  // ----------------------------------------------------------- specification

  /** `valueAt`: `None` is the undefined value. */
  function ValueAt(t: Json, p: Path): Option<Json> {
    if p == [] then Some(t)
    else if t.Object? && p[0] in t.fields then ValueAt(t.fields[p[0]], p[1..])
    else None
  }

  /** One edit of an object: `None` when a parent on the way is no object. */
  function Apply(t: Json, p: Path, e: Edit): (r: Option<Json>)
    requires t.Object? && p != []
    ensures r.Some? ==> r.value.Object?
    decreases |p|
  {
    if |p| == 1 then
      match e
      case Set(v) => Some(Object(t.fields[p[0] := v]))
      case Delete => Some(Object(t.fields - {p[0]}))
    else if e.Delete? && (p[0] !in t.fields || !t.fields[p[0]].Object?) then Some(t)
    else
      var child := if p[0] in t.fields then t.fields[p[0]] else EMPTY_OBJECT;
      if !child.Object? then None
      else
        match Apply(child, p[1..], e)
        case None => None
        case Some(c) => Some(Object(t.fields[p[0] := c]))
  }

  function ApplyAll(t: Json, changes: seq<Change>): (r: Option<Json>)
    requires t.Object? && forall c :: c in changes ==> c.path != []
    ensures r.Some? ==> r.value.Object?
    decreases |changes|
  {
    if changes == [] then Some(t)
    else
      match Apply(t, changes[0].path, changes[0].edit)
      case None => None
      case Some(t') => ApplyAll(t', changes[1..])
  }

  predicate Incomparable(p: Path, q: Path) {
    !(p <= q) && !(q <= p)
  }

  predicate PrefixFree(changes: seq<Change>) {
    && (forall c :: c in changes ==> c.path != [])
    && forall i, j :: 0 <= i < j < |changes| ==> Incomparable(changes[i].path, changes[j].path)
  }

  predicate Matches(t: Json, c: Change) {
    match c.edit
    case Set(v) => ValueAt(t, c.path) == Some(v)
    case Delete => ValueAt(t, c.path) == None
  }

  /** A set is blocked when a proper prefix of its path holds something that is no object. */
  ghost predicate Blocked(t: Json, c: Change) {
    c.edit.Set?
    && exists k :: 0 < k < |c.path| && ValueAt(t, c.path[..k]).Some? && !ValueAt(t, c.path[..k]).value.Object?
  }

  // ---------------------------------------------------------- in-place edits

  /** The tree with the value below `p`, whose parent is an object, replaced. */
  function Put(t: Json, p: Path, v: Json): (r: Json)
    requires p != [] && ParentIsObject(t, p)
    ensures r.Object?
    decreases |p|
  {
    if |p| == 1 then Object(t.fields[p[0] := v])
    else Object(t.fields[p[0] := Put(t.fields[p[0]], p[1..], v)])
  }

  function Remove(t: Json, p: Path): (r: Json)
    requires p != [] && ParentIsObject(t, p)
    ensures r.Object?
    decreases |p|
  {
    if |p| == 1 then Object(t.fields - {p[0]})
    else Object(t.fields[p[0] := Remove(t.fields[p[0]], p[1..])])
  }

  predicate ParentIsObject(t: Json, p: Path)
    requires p != []
    decreases |p|
  {
    t.Object? && (|p| > 1 ==> p[0] in t.fields && ParentIsObject(t.fields[p[0]], p[1..]))
  }

  lemma {:induction false} ParentByValue(t: Json, p: Path)
    requires p != []
    ensures ParentIsObject(t, p) <==> ValueAt(t, p[..|p| - 1]).Some? && ValueAt(t, p[..|p| - 1]).value.Object?
    decreases |p|
  {
    var front := p[..|p| - 1];
    if |p| > 1 {
      assert front[0] == p[0] && front[1..] == p[1..][..|p[1..]| - 1];
      if t.Object? && p[0] in t.fields {
        ParentByValue(t.fields[p[0]], p[1..]);
      }
    }
  }

  /** Reading below an object whose key `p[0]` is present. */
  lemma {:induction false} SetFinds(t: Json, p: Path, v: Json)
    requires p != [] && ParentIsObject(t, p)
    ensures Apply(t, p, Set(v)) == Some(Put(t, p, v))
    ensures ValueAt(t, p).Some? ==> Apply(t, p, Delete) == Some(Remove(t, p))
    decreases |p|
  {
    if |p| > 1 {
      SetFinds(t.fields[p[0]], p[1..], v);
    }
  }

  /** Creating a missing parent first does not change what a set arrives at. */
  lemma {:induction false} OpeningIsPartOfSetting(t: Json, p: Path, k: nat, v: Json)
    requires 0 < k < |p| && ParentIsObject(t, p[..k]) && ValueAt(t, p[..k]) == None
    ensures Apply(Put(t, p[..k], EMPTY_OBJECT), p, Set(v)) == Apply(t, p, Set(v))
    decreases k
  {
    var child := if p[0] in t.fields then t.fields[p[0]] else EMPTY_OBJECT;
    if k > 1 {
      assert p[..k][1..] == p[1..][..k - 1];
      OpeningIsPartOfSetting(child, p[1..], k - 1, v);
    }
    var filled := Apply(child, p[1..], Set(v));
    if filled.Some? {
      UpdateTwice(t.fields, p[0], Put(t, p[..k], EMPTY_OBJECT).fields[p[0]], filled.value);
    }
  }

  lemma UpdateTwice(m: map<Key, Json>, k: Key, x: Json, y: Json)
    ensures m[k := x][k := y] == m[k := y]
  {
  }

  lemma {:induction false} SetIsBlocked(t: Json, p: Path, k: nat, v: Json)
    requires 0 < k < |p| && ParentIsObject(t, p[..k])
    requires ValueAt(t, p[..k]).Some? && !ValueAt(t, p[..k]).value.Object?
    ensures Apply(t, p, Set(v)) == None
    decreases k
  {
    assert p[..k][0] == p[0] && p[..k][1..] == p[1..][..k - 1];
    if k > 1 {
      SetIsBlocked(t.fields[p[0]], p[1..], k - 1, v);
    }
  }

  /** A delete below a missing or non-object value does nothing. */
  lemma {:induction false} DeleteStops(t: Json, p: Path, k: nat)
    requires t.Object? && 0 < k <= |p| && ValueAt(t, p[..k]) == None
    ensures Apply(t, p, Delete) == Some(t)
    decreases k
  {
    assert p[..k][0] == p[0] && p[..k][1..] == p[1..][..k - 1];
    if |p| == 1 {
      assert t.fields - {p[0]} == t.fields;
    } else if p[0] in t.fields && t.fields[p[0]].Object? {
      DeleteStops(t.fields[p[0]], p[1..], k - 1);
      assert t.fields[p[0] := t.fields[p[0]]] == t.fields;
    }
  }

  lemma {:induction false} ValueAtPut(t: Json, p: Path, v: Json)
    requires p != [] && ParentIsObject(t, p)
    ensures ValueAt(Put(t, p, v), p) == Some(v)
    decreases |p|
  {
    if |p| > 1 {
      ValueAtPut(t.fields[p[0]], p[1..], v);
    }
  }

  lemma {:induction false} ValueAtExtends(t: Json, p: Path, k: Key)
    ensures ValueAt(t, p + [k]) ==
            match ValueAt(t, p)
            case None => None
            case Some(u) => if u.Object? && k in u.fields then Some(u.fields[k]) else None
    decreases |p|
  {
    if p == [] {
      assert p + [k] == [k];
    } else {
      assert (p + [k])[1..] == p[1..] + [k];
      if t.Object? && p[0] in t.fields {
        ValueAtExtends(t.fields[p[0]], p[1..], k);
      }
    }
  }

  /** The configuration object that a batch edits step by step. */
  class Config {
    var root: Json

    constructor (root: Json)
      ensures this.root == root
    {
      this.root := root;
    }

    /** A blocked set leaves the tree as it was; otherwise the tree is the edited one. */
    method SetValue(segments: Path, value: Json) returns (ok: bool)
      requires root.Object? && segments != []
      modifies this
      ensures ok <==> Apply(old(root), segments, Set(value)).Some?
      ensures root == if ok then Apply(old(root), segments, Set(value)).value else old(root)
    {
      for i := 0 to |segments| - 1
        invariant ParentIsObject(root, segments[..i + 1])
        invariant root == old(root) || ValueAt(root, segments[..i]) == Some(EMPTY_OBJECT)
        invariant Apply(root, segments, Set(value)) == Apply(old(root), segments, Set(value))
      {
        var current := segments[..i + 1];
        assert segments[..i] + [segments[i]] == current;
        ValueAtExtends(root, segments[..i], segments[i]);
        if ValueAt(root, current) == None {
          OpeningIsPartOfSetting(root, segments, i + 1, value);
          ValueAtPut(root, current, EMPTY_OBJECT);
          root := Put(root, current, EMPTY_OBJECT);
        }
        if !ValueAt(root, current).value.Object? {
          SetIsBlocked(root, segments, i + 1, value);
          return false;
        }
        assert segments[..i + 2][..|segments[..i + 2]| - 1] == current;
        ParentByValue(root, segments[..i + 2]);
      }
      assert segments[..|segments|] == segments;
      SetFinds(root, segments, value);
      root := Put(root, segments, value);
      return true;
    }

    method DeleteValue(segments: Path)
      requires root.Object? && segments != []
      modifies this
      ensures Apply(old(root), segments, Delete) == Some(root)
    {
      for i := 0 to |segments| - 1
        invariant root == old(root) && ValueAt(root, segments[..i]).Some?
      {
        assert segments[..i] + [segments[i]] == segments[..i + 1];
        ValueAtExtends(root, segments[..i], segments[i]);
        var current := ValueAt(root, segments[..i]).value;
        if !current.Object? || segments[i] !in current.fields {
          DeleteStops(root, segments, i + 1);
          return;
        }
      }
      var n := |segments| - 1;
      assert segments[..n] + [segments[n]] == segments;
      ValueAtExtends(root, segments[..n], segments[n]);
      ParentByValue(root, segments);
      var current := ValueAt(root, segments[..n]).value;
      if current.Object? && segments[n] in current.fields {
        SetFinds(root, segments, Null);
        root := Remove(root, segments);
      } else {
        assert segments[..n + 1] == segments;
        DeleteStops(root, segments, n + 1);
      }
    }

    /** The loop over a batch: it stops at the first blocked set. */
    method ApplyChanges(changes: seq<Change>) returns (ok: bool)
      requires root.Object? && forall c :: c in changes ==> c.path != []
      modifies this
      ensures ok <==> ApplyAll(old(root), changes).Some?
      ensures ok ==> ApplyAll(old(root), changes) == Some(root)
    {
      for i := 0 to |changes|
        invariant root.Object?
        invariant ApplyAll(root, changes[i..]) == ApplyAll(old(root), changes)
      {
        var change := changes[i];
        assert change in changes && changes[i..][1..] == changes[i + 1..];
        match change.edit {
          case Set(value) =>
            var done := SetValue(change.path, value);
            if !done {
              return false;
            }
          case Delete =>
            DeleteValue(change.path);
        }
      }
      return true;
    }
  }

  // ------------------------------------------------- what the overlap check buys

  function Then(t: Option<Json>, p: Path, e: Edit): Option<Json>
    requires p != [] && (t.Some? ==> t.value.Object?)
  {
    if t.None? then None else Apply(t.value, p, e)
  }

  /** Two edits of incomparable paths commute, also in failing, and neither blocks the other. */
  lemma {:induction false} EditsCommute(t: Json, p: Path, a: Edit, q: Path, b: Edit)
    requires t.Object? && p != [] && q != [] && Incomparable(p, q)
    ensures Then(Apply(t, p, a), q, b) == Then(Apply(t, q, b), p, a)
    ensures Apply(t, p, a).Some? && Apply(t, q, b).Some? ==> Then(Apply(t, p, a), q, b).Some?
    decreases |p|
  {
    if p[0] == q[0] {
      assert |p| > 1 && |q| > 1 by {
        assert |p| == 1 ==> p <= q;
        assert |q| == 1 ==> q <= p;
      }
      TailsIncomparable(p, q);
      CommuteBelow(t, p, a, q, b);
    } else {
      CommuteApart(t, p, a, q, b);
    }
  }

  lemma TailsIncomparable(p: Path, q: Path)
    requires p != [] && q != [] && p[0] == q[0] && Incomparable(p, q)
    ensures Incomparable(p[1..], q[1..])
  {
    assert p == [p[0]] + p[1..] && q == [q[0]] + q[1..];
  }

  lemma {:induction false} CommuteApart(t: Json, p: Path, a: Edit, q: Path, b: Edit)
    requires t.Object? && p != [] && q != [] && p[0] != q[0]
    ensures Then(Apply(t, p, a), q, b) == Then(Apply(t, q, b), p, a)
    ensures Apply(t, p, a).Some? && Apply(t, q, b).Some? ==> Then(Apply(t, p, a), q, b).Some?
  {
    hide Apply;
    OnlyFirstKey(t, p, a);
    OnlyFirstKey(t, q, b);
    if Apply(t, p, a).Some? && Apply(t, q, b).Some? {
      var u, w := Apply(t, p, a).value, Apply(t, q, b).value;
      SameKeySameEdit(t, u, q, b);
      SameKeySameEdit(t, w, p, a);
      OnlyFirstKey(u, q, b);
      OnlyFirstKey(w, p, a);
      var x, y := Apply(u, q, b).value, Apply(w, p, a).value;
      assert forall k :: k in x.fields <==> k in y.fields;
      assert x.fields == y.fields;
    } else if Apply(t, p, a).Some? {
      SameKeySameEdit(t, Apply(t, p, a).value, q, b);
    } else if Apply(t, q, b).Some? {
      SameKeySameEdit(t, Apply(t, q, b).value, p, a);
    }
  }

  /** An edit touches only the entry of its first key. */
  lemma OnlyFirstKey(t: Json, p: Path, e: Edit)
    requires t.Object? && p != []
    ensures Apply(t, p, e).Some? ==>
              var u := Apply(t, p, e).value;
              forall k :: k != p[0] ==>
                (k in u.fields <==> k in t.fields) && (k in t.fields ==> u.fields[k] == t.fields[k])
  {
  }

  /** Two objects with the same entry at the first key are edited alike there. */
  lemma SameKeySameEdit(t: Json, u: Json, p: Path, e: Edit)
    requires t.Object? && u.Object? && p != []
    requires p[0] in t.fields <==> p[0] in u.fields
    requires p[0] in t.fields ==> t.fields[p[0]] == u.fields[p[0]]
    ensures Apply(t, p, e).Some? <==> Apply(u, p, e).Some?
    ensures Apply(t, p, e).Some? ==>
              var x, y := Apply(t, p, e).value, Apply(u, p, e).value;
              && (p[0] in x.fields <==> p[0] in y.fields)
              && (p[0] in x.fields ==> x.fields[p[0]] == y.fields[p[0]])
  {
  }

  lemma {:induction false} CommuteBelow(t: Json, p: Path, a: Edit, q: Path, b: Edit)
    requires t.Object? && |p| > 1 && |q| > 1 && p[0] == q[0] && Incomparable(p[1..], q[1..])
    ensures Then(Apply(t, p, a), q, b) == Then(Apply(t, q, b), p, a)
    ensures Apply(t, p, a).Some? && Apply(t, q, b).Some? ==> Then(Apply(t, p, a), q, b).Some?
    decreases |p|, 0
  {
    if p[0] in t.fields {
      if t.fields[p[0]].Object? {
        EditsCommute(t.fields[p[0]], p[1..], a, q[1..], b);
        SameUpdates(t, p[0], Apply(t.fields[p[0]], p[1..], a), Apply(t.fields[p[0]], q[1..], b),
                    Then(Apply(t.fields[p[0]], p[1..], a), q[1..], b));
      }
    } else {
      EditsCommute(EMPTY_OBJECT, p[1..], a, q[1..], b);
      NothingToDelete(p[1..]);
      NothingToDelete(q[1..]);
      SameUpdates(t, p[0], Apply(EMPTY_OBJECT, p[1..], a), Apply(EMPTY_OBJECT, q[1..], b),
                  Then(Apply(EMPTY_OBJECT, p[1..], a), q[1..], b));
    }
  }

  lemma SameUpdates(t: Json, k: Key, x: Option<Json>, y: Option<Json>, z: Option<Json>)
    requires t.Object?
    ensures x.Some? && z.Some? ==> t.fields[k := x.value][k := z.value] == t.fields[k := z.value]
    ensures y.Some? && z.Some? ==> t.fields[k := y.value][k := z.value] == t.fields[k := z.value]
    ensures k in t.fields ==> t.fields[k := t.fields[k]] == t.fields
  {
  }

  lemma NothingToDelete(p: Path)
    requires p != []
    ensures Apply(EMPTY_OBJECT, p, Delete) == Some(EMPTY_OBJECT)
  {
    assert EMPTY_OBJECT.fields - {p[0]} == EMPTY_OBJECT.fields;
  }

  // -------------------------------------------------------------- all orders

  lemma {:induction false} MoveToFront(t: Json, changes: seq<Change>, j: nat)
    requires t.Object? && j < |changes| && forall c :: c in changes ==> c.path != []
    requires forall i :: 0 <= i < j ==> Incomparable(changes[i].path, changes[j].path)
    ensures forall c :: c in [changes[j]] + changes[..j] + changes[j + 1..] ==> c in changes
    ensures ApplyAll(t, changes) == ApplyAll(t, [changes[j]] + changes[..j] + changes[j + 1..])
    decreases j
  {
    var c := changes[j];
    var moved := [c] + changes[..j] + changes[j + 1..];
    if j == 0 {
      assert moved == changes;
    } else {
      var d := changes[0];
      EditsCommute(t, d.path, d.edit, c.path, c.edit);
      var rest := changes[1..];
      var front := changes[..j][1..];
      assert rest[..j - 1] == front && rest[j..] == changes[j + 1..] && rest[j - 1] == c;
      assert moved[1..] == [d] + (front + changes[j + 1..]);
      assert ([d] + (front + changes[j + 1..]))[1..] == front + changes[j + 1..];
      var u := Apply(t, d.path, d.edit);
      if u.Some? {
        MoveToFront(u.value, rest, j - 1);
        assert ([c] + rest[..j - 1] + rest[j..])[1..] == front + changes[j + 1..];
      }
    }
  }

  /** Every order of a prefix-free batch gives the same tree, or every order fails. */
  lemma {:induction false} OrderDoesNotMatter(t: Json, a: seq<Change>, b: seq<Change>)
    requires t.Object? && PrefixFree(a) && multiset(a) == multiset(b)
    ensures (forall c :: c in b ==> c in a) && ApplyAll(t, a) == ApplyAll(t, b)
    decreases |a|
  {
    hide Apply;
    hide Incomparable;
    SameMembers(a, b);
    if a == [] {
      assert |multiset(b)| == 0;
    } else {
      var c := a[0];
      assert c in b;
      var j :| 0 <= j < |b| && b[j] == c;
      PermutedPrefixFree(a, b);
      MoveToFront(t, b, j);
      var rest := b[..j] + b[j + 1..];
      WithoutOne(a, b, j);
      assert [c] + b[..j] + b[j + 1..] == [c] + rest && ([c] + rest)[1..] == rest;
      if Apply(t, c.path, c.edit).Some? {
        OrderDoesNotMatter(Apply(t, c.path, c.edit).value, a[1..], rest);
      }
    }
  }

  lemma SameMembers(a: seq<Change>, b: seq<Change>)
    requires multiset(a) == multiset(b)
    ensures forall c :: c in a <==> c in b
  {
    forall c
      ensures c in a <==> c in b
    {
      assert c in a <==> c in multiset(a);
      assert c in b <==> c in multiset(b);
    }
  }

  lemma WithoutOne(a: seq<Change>, b: seq<Change>, j: nat)
    requires a != [] && j < |b| && b[j] == a[0] && multiset(a) == multiset(b)
    ensures multiset(a[1..]) == multiset(b[..j] + b[j + 1..])
  {
    assert a == [a[0]] + a[1..];
    assert b == b[..j] + [b[j]] + b[j + 1..];
    assert multiset(a) == multiset{a[0]} + multiset(a[1..]);
    assert multiset(b) == multiset(b[..j]) + multiset{b[j]} + multiset(b[j + 1..]);
    assert multiset(b[..j] + b[j + 1..]) == multiset(b[..j]) + multiset(b[j + 1..]);
    assert multiset(a[1..]) == multiset(a) - multiset{a[0]};
    assert multiset(b[..j] + b[j + 1..]) == multiset(b) - multiset{b[j]};
  }

  lemma PermutedPrefixFree(a: seq<Change>, b: seq<Change>)
    requires PrefixFree(a) && multiset(a) == multiset(b)
    ensures PrefixFree(b)
  {
    SameMembers(a, b);
    forall i, j | 0 <= i < j < |b|
      ensures Incomparable(b[i].path, b[j].path)
    {
      assert b[i] in b && b[j] in b;
      var k :| 0 <= k < |a| && a[k] == b[i];
      var m :| 0 <= m < |a| && a[m] == b[j];
      if k == m {
        TwiceInBoth(b, i, j);
        OnlyOnce(a, k);
        assert false;
      }
    }
  }

  lemma TwiceInBoth(b: seq<Change>, i: nat, j: nat)
    requires i < j < |b| && b[i] == b[j]
    ensures multiset(b)[b[i]] >= 2
  {
    assert b == b[..i] + [b[i]] + b[i + 1..j] + [b[j]] + b[j + 1..];
  }

  lemma OnlyOnce(a: seq<Change>, k: nat)
    requires PrefixFree(a) && k < |a|
    ensures multiset(a)[a[k]] == 1
  {
    assert a == a[..k] + [a[k]] + a[k + 1..];
    assert a[k] !in a[..k] && a[k] !in a[k + 1..];
  }

  // -------------------------------------------------- failure, effect, frame

  /** A single edit fails exactly when it is blocked in the tree. */
  lemma {:induction false} FailsWhenBlocked(t: Json, c: Change)
    requires t.Object? && c.path != []
    ensures Apply(t, c.path, c.edit).None? <==> Blocked(t, c)
    decreases |c.path|
  {
    var p := c.path;
    if c.edit.Delete? {
      DeleteNeverFails(t, p);
    } else if |p| > 1 {
      assert p[..1] == [p[0]];
      if p[0] in t.fields && t.fields[p[0]].Object? {
        var below := Change(p[1..], c.edit);
        FailsWhenBlocked(t.fields[p[0]], below);
        forall k | 0 < k < |p|
          ensures ValueAt(t, p[..k]) == ValueAt(t.fields[p[0]], p[1..][..k - 1])
        {
          assert p[..k][1..] == p[1..][..k - 1];
        }
        if k :| 0 < k < |below.path| && ValueAt(t.fields[p[0]], below.path[..k]).Some?
                && !ValueAt(t.fields[p[0]], below.path[..k]).value.Object? {
          assert ValueAt(t, p[..k + 1]) == ValueAt(t.fields[p[0]], below.path[..k]);
        }
      } else if p[0] in t.fields {
        assert ValueAt(t, p[..1]) == Some(t.fields[p[0]]);
      } else {
        EmptyNeverBlocks(p[1..], c.edit);
        forall k | 0 < k < |p|
          ensures ValueAt(t, p[..k]) == None
        {
          assert p[..k][0] == p[0];
        }
      }
    }
  }

  lemma {:induction false} DeleteNeverFails(t: Json, p: Path)
    requires t.Object? && p != []
    ensures Apply(t, p, Delete).Some?
    decreases |p|
  {
    if |p| > 1 && p[0] in t.fields && t.fields[p[0]].Object? {
      DeleteNeverFails(t.fields[p[0]], p[1..]);
    }
  }

  lemma {:induction false} EmptyNeverBlocks(p: Path, e: Edit)
    requires p != []
    ensures Apply(EMPTY_OBJECT, p, e).Some?
    decreases |p|
  {
    if |p| > 1 {
      EmptyNeverBlocks(p[1..], e);
    }
  }

  /** Whether a batch fails can be read off the starting tree. */
  lemma {:induction false} BatchFailsWhenBlocked(t: Json, changes: seq<Change>)
    requires t.Object? && PrefixFree(changes)
    ensures ApplyAll(t, changes).None? <==> exists c :: c in changes && Blocked(t, c)
    decreases |changes|
  {
    if changes != [] {
      var c, rest := changes[0], changes[1..];
      FailsWhenBlocked(t, c);
      if Apply(t, c.path, c.edit).Some? {
        var u := Apply(t, c.path, c.edit).value;
        BatchFailsWhenBlocked(u, rest);
        forall d | d in rest
          ensures Blocked(u, d) <==> Blocked(t, d)
        {
          EditsCommute(t, c.path, c.edit, d.path, d.edit);
          FailsWhenBlocked(t, d);
          FailsWhenBlocked(u, d);
        }
        assert forall d :: d in changes <==> d == c || d in rest;
      }
    }
  }

  lemma {:induction false} EditTakesEffect(t: Json, p: Path, e: Edit)
    requires t.Object? && p != [] && Apply(t, p, e).Some?
    ensures Matches(Apply(t, p, e).value, Change(p, e))
    decreases |p|
  {
    if |p| > 1 && !(e.Delete? && (p[0] !in t.fields || !t.fields[p[0]].Object?)) {
      EditTakesEffect(if p[0] in t.fields then t.fields[p[0]] else EMPTY_OBJECT, p[1..], e);
    }
  }

  /** An edit leaves every path alone that is neither above nor below the edited one. */
  lemma {:induction false} EditLeaves(t: Json, p: Path, e: Edit, q: Path)
    requires t.Object? && p != [] && Apply(t, p, e).Some? && Incomparable(p, q)
    ensures ValueAt(Apply(t, p, e).value, q) == ValueAt(t, q)
    decreases |p|
  {
    OnlyFirstKey(t, p, e);
    if q[0] == p[0] {
      assert |p| > 1 by {
        assert |p| == 1 ==> p <= q;
      }
      TailsIncomparable(p, q);
      if !(e.Delete? && (p[0] !in t.fields || !t.fields[p[0]].Object?)) {
        var child := if p[0] in t.fields then t.fields[p[0]] else EMPTY_OBJECT;
        EditLeaves(child, p[1..], e, q[1..]);
        NothingInEmpty(q[1..]);
      }
    }
  }

  lemma NothingInEmpty(q: Path)
    requires q != []
    ensures ValueAt(EMPTY_OBJECT, q) == None
  {
  }

  lemma {:induction false} BatchLeaves(t: Json, changes: seq<Change>, q: Path)
    requires t.Object? && (forall c :: c in changes ==> c.path != []) && ApplyAll(t, changes).Some?
    requires forall c :: c in changes ==> Incomparable(c.path, q)
    ensures ValueAt(ApplyAll(t, changes).value, q) == ValueAt(t, q)
    decreases |changes|
  {
    if changes != [] {
      EditLeaves(t, changes[0].path, changes[0].edit, q);
      BatchLeaves(Apply(t, changes[0].path, changes[0].edit).value, changes[1..], q);
    }
  }

  /** After a successful batch every change is observed. */
  lemma {:induction false} BatchTakesEffect(t: Json, changes: seq<Change>)
    requires t.Object? && PrefixFree(changes) && ApplyAll(t, changes).Some?
    ensures forall c :: c in changes ==> Matches(ApplyAll(t, changes).value, c)
    decreases |changes|
  {
    if changes != [] {
      var c, rest := changes[0], changes[1..];
      var u := Apply(t, c.path, c.edit).value;
      BatchTakesEffect(u, rest);
      EditTakesEffect(t, c.path, c.edit);
      forall d | d in rest
        ensures Incomparable(d.path, c.path)
      {
        var i :| 0 <= i < |rest| && rest[i] == d;
        assert changes[i + 1] == d;
      }
      BatchLeaves(u, rest, c.path);
      assert forall d :: d in changes <==> d == c || d in rest;
    }
  }

  lemma {:induction false} ObservedEditIsIdle(t: Json, p: Path, e: Edit)
    requires t.Object? && p != [] && Matches(t, Change(p, e))
    ensures Apply(t, p, e) == Some(t)
    decreases |p|
  {
    if |p| == 1 {
      assert p[0] in t.fields ==> ValueAt(t, p) == Some(t.fields[p[0]]);
      match e {
        case Set(v) => assert t.fields[p[0] := v] == t.fields;
        case Delete => assert t.fields - {p[0]} == t.fields;
      }
    } else if p[0] in t.fields && t.fields[p[0]].Object? {
      ObservedEditIsIdle(t.fields[p[0]], p[1..], e);
      assert t.fields[p[0] := t.fields[p[0]]] == t.fields;
    } else {
      assert p[0] in t.fields ==> ValueAt(t, p) == ValueAt(t.fields[p[0]], p[1..]) == None;
    }
  }

  lemma {:induction false} ObservedBatchIsIdle(t: Json, changes: seq<Change>)
    requires t.Object? && forall c :: c in changes ==> c.path != [] && Matches(t, c)
    ensures ApplyAll(t, changes) == Some(t)
    decreases |changes|
  {
    if changes != [] {
      assert changes[0] in changes;
      ObservedEditIsIdle(t, changes[0].path, changes[0].edit);
      ObservedBatchIsIdle(t, changes[1..]);
    }
  }

  /** Applying a batch again changes nothing. */
  lemma ReapplyingIsIdle(t: Json, changes: seq<Change>)
    requires t.Object? && PrefixFree(changes) && ApplyAll(t, changes).Some?
    ensures ApplyAll(ApplyAll(t, changes).value, changes) == ApplyAll(t, changes)
  {
    BatchTakesEffect(t, changes);
    ObservedBatchIsIdle(ApplyAll(t, changes).value, changes);
  }

  // -------------------------------------------------------- accepting a batch

  /** A change as the caller sends it; a delete carries no value. */
  datatype RawChange = RawChange(operation: string, field: string, value: Option<Json>)

  datatype Problem = BadCount | BadOperation | BadField | Duplicate | MissingValue | Overlap

  const FORBIDDEN: set<string> := {"__proto__", "prototype", "constructor"}

  predicate IsSegmentChar(c: char) {
    IsLetter(c) || '0' <= c <= '9' || c == '_' || c == '-'
  }

  predicate IsSegment(s: string) {
    s != "" && IsLetter(s[0]) && (forall i :: 0 <= i < |s| ==> IsSegmentChar(s[i])) && Lower(s) !in FORBIDDEN
  }

  /** `field.split(".")` */
  function SplitDots(s: string): (r: seq<string>)
    ensures r != []
  {
    if s == "" then [""]
    else
      var rest := SplitDots(s[1..]);
      if s[0] == '.' then [""] + rest else [[s[0]] + rest[0]] + rest[1..]
  }

  function FieldSegments(field: string): Option<Path> {
    var segments := SplitDots(field);
    if field == "" || field[0] == '.' || field[|field| - 1] == '.'
       || exists s :: s in segments && !IsSegment(s) then None
    else Some(segments)
  }

  predicate Sound(raw: RawChange) {
    && (raw.operation == "set" || raw.operation == "delete")
    && FieldSegments(raw.field).Some?
    && (raw.operation == "set" ==> raw.value.Some?)
  }

  function Normal(raw: RawChange): (c: Change)
    requires Sound(raw)
    ensures c.path != []
  {
    Change(FieldSegments(raw.field).value, if raw.operation == "set" then Set(raw.value.value) else Delete)
  }

  /** Accepted batches: one to sixteen sound changes, no path a prefix of another. */
  ghost predicate Acceptable(raw: seq<RawChange>) {
    && 1 <= |raw| <= 16
    && (forall i :: 0 <= i < |raw| ==> Sound(raw[i]))
    && forall i, j :: 0 <= i < j < |raw| ==> Incomparable(Normal(raw[i]).path, Normal(raw[j]).path)
  }

  method NormalizeChange(raw: RawChange, seen: set<string>) returns (r: Result<Change, Problem>)
    ensures r.Success? <==> Sound(raw) && raw.field !in seen
    ensures r.Success? ==> r.value == Normal(raw)
  {
    if raw.operation != "set" && raw.operation != "delete" {
      return Failure(BadOperation);
    }
    var segments := FieldSegments(raw.field);
    if segments.None? {
      return Failure(BadField);
    }
    if raw.field in seen {
      return Failure(Duplicate);
    }
    if raw.operation == "set" && raw.value.None? {
      return Failure(MissingValue);
    }
    return Success(Change(segments.value, if raw.operation == "set" then Set(raw.value.value) else Delete));
  }

  /** The pairwise comparison of the common lengths of two paths. */
  method Overlapping(a: Path, b: Path) returns (overlap: bool)
    ensures overlap <==> !Incomparable(a, b)
  {
    var n := if |a| < |b| then |a| else |b|;
    for i := 0 to n
      invariant forall k :: 0 <= k < i ==> a[k] == b[k]
    {
      if a[i] != b[i] {
        return false;
      }
    }
    return true;
  }

  /** A batch is accepted exactly when it is acceptable, and then it is prefix-free. */
  method NormalizeChanges(raw: seq<RawChange>) returns (r: Result<seq<Change>, Problem>)
    ensures r.Success? <==> Acceptable(raw)
    ensures r.Success? ==>
              && PrefixFree(r.value) && |r.value| == |raw|
              && forall i :: 0 <= i < |raw| ==> r.value[i] == Normal(raw[i])
  {
    if |raw| == 0 || |raw| > 16 {
      return Failure(BadCount);
    }
    var seen: set<string> := {};
    var changes: seq<Change> := [];
    for i := 0 to |raw|
      invariant |changes| == i && seen == set k | 0 <= k < i :: raw[k].field
      invariant forall k :: 0 <= k < i ==> Sound(raw[k]) && changes[k] == Normal(raw[k])
    {
      var change := NormalizeChange(raw[i], seen);
      if change.Failure? {
        if Sound(raw[i]) {
          ghost var k :| 0 <= k < i && raw[k].field == raw[i].field;
          assert Normal(raw[k]).path == Normal(raw[i]).path;
        }
        return Failure(change.error);
      }
      seen := seen + {raw[i].field};
      changes := changes + [change.value];
    }
    for left := 0 to |changes|
      invariant forall i, j :: 0 <= i < left && i < j < |changes| ==> Incomparable(changes[i].path, changes[j].path)
    {
      for right := left + 1 to |changes|
        invariant forall j :: left < j < right ==> Incomparable(changes[left].path, changes[j].path)
      {
        var overlap := Overlapping(changes[left].path, changes[right].path);
        if overlap {
          assert !Incomparable(Normal(raw[left]).path, Normal(raw[right]).path);
          return Failure(Overlap);
        }
      }
    }
    return Success(changes);
  }

  // --------------------------------------------------- observing and mutating

  /** `observe`: the configuration holds every change. */
  predicate Verified(root: Json, changes: seq<Change>) {
    root.Object? && forall c :: c in changes ==> Matches(root, c)
  }

  datatype Mutation = Refused | Failed | Written

  /** The configuration file: `None` before it exists. Its hash is taken as its content. */
  class ConfigFile {
    var content: Option<Json>

    /**
     The mutation writes only if the file is still what it was when the effect
     was planned; what it writes is observed as verified.
     */
    method Mutate(planned: Option<Json>, initialConfig: Json, changes: seq<Change>) returns (m: Mutation)
      requires initialConfig.Object? && (content.Some? ==> content.value.Object?) && PrefixFree(changes)
      modifies this
      ensures m == Refused <==> old(content) != planned
      ensures m != Written ==> content == old(content)
      ensures var start := if old(content).Some? then old(content).value else initialConfig;
              && (m == Failed <==> old(content) == planned && ApplyAll(start, changes) == None)
              && (m == Written ==> content == ApplyAll(start, changes)
                                    && content.Some? && Verified(content.value, changes))
    {
      if content != planned {
        return Refused;
      }
      var config := new Config(if content.Some? then content.value else initialConfig);
      BatchTakesEffectIfAny(config.root, changes);
      var ok := config.ApplyChanges(changes);
      if !ok {
        return Failed;
      }
      content := Some(config.root);
      return Written;
    }
  }

  lemma BatchTakesEffectIfAny(t: Json, changes: seq<Change>)
    requires t.Object? && PrefixFree(changes)
    ensures ApplyAll(t, changes).Some? ==> Verified(ApplyAll(t, changes).value, changes)
  {
    if ApplyAll(t, changes).Some? {
      BatchTakesEffect(t, changes);
    }
  }
}

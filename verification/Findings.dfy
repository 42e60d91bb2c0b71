/** Audit findings and their order: by code, locator and detail, stably. */
module Findings {
  import opened Sorting

  datatype Check = Landmarks | Names | FocusOrder | Hierarchy | EdgeAlignment | Consistency | Asymmetry | Overflow

  datatype Finding = Finding(check: Check, code: string, locator: string, detail: string)

  // ---------------------------------------------------------- sorted findings

  predicate KeyLeq(a: Finding, b: Finding, collate: (string, string) -> bool) {
    if a.code != b.code then collate(a.code, b.code)
    else if a.locator != b.locator then collate(a.locator, b.locator)
    else collate(a.detail, b.detail)
  }

  /** The comparison of findings: by code, then locator, then detail. */
  function ByKey(collate: (string, string) -> bool): (Finding, Finding) -> bool {
    (a, b) => KeyLeq(a, b, collate)
  }

  predicate SameKey(a: Finding, b: Finding) {
    a.code == b.code && a.locator == b.locator && a.detail == b.detail
  }

  function Rank(check: Check): nat {
    match check
    case Landmarks => 0
    case Names => 1
    case FocusOrder => 2
    case Hierarchy => 3
    case EdgeAlignment => 4
    case Consistency => 5
    case Asymmetry => 6
    case Overflow => 7
  }

  predicate FullLeq(a: Finding, b: Finding, collate: (string, string) -> bool) {
    KeyLeq(a, b, collate) && (SameKey(a, b) ==> Rank(a.check) <= Rank(b.check))
  }

  /** The order the sorted findings turn out to have: ties go by check. */
  function ByKeyAndCheck(collate: (string, string) -> bool): (Finding, Finding) -> bool {
    (a, b) => FullLeq(a, b, collate)
  }

  lemma KeyLeqIsTransitive(a: Finding, b: Finding, c: Finding, collate: (string, string) -> bool)
    requires TotalOrder(collate) && KeyLeq(a, b, collate) && KeyLeq(b, c, collate)
    ensures KeyLeq(a, c, collate)
    ensures SameKey(a, c) ==> SameKey(a, b) && SameKey(b, c)
  {
  }

  lemma FullOrderIsTotal(collate: (string, string) -> bool)
    requires TotalOrder(collate)
    ensures TotalOrder(ByKeyAndCheck(collate))
  {
    var leq := ByKeyAndCheck(collate);
    forall a, b
      ensures leq(a, b) || leq(b, a)
    {
    }
    forall a, b | leq(a, b) && leq(b, a)
      ensures a == b
    {
    }
    forall a, b, c | leq(a, b) && leq(b, c)
      ensures leq(a, c)
    {
      KeyLeqIsTransitive(a, b, c, collate);
    }
  }

  /** Findings with one key come in the order of their checks. */
  predicate TiesInOrder(s: seq<Finding>) {
    forall i, j :: 0 <= i < j < |s| && SameKey(s[i], s[j]) ==> Rank(s[i].check) <= Rank(s[j].check)
  }

  lemma {:induction false} InsertKeepsFullOrder(s: seq<Finding>, x: Finding, collate: (string, string) -> bool)
    requires TotalOrder(collate) && Ordered(s, ByKeyAndCheck(collate))
    requires forall i :: 0 <= i < |s| && SameKey(s[i], x) ==> Rank(s[i].check) <= Rank(x.check)
    ensures Ordered(Insert(s, x, ByKey(collate)), ByKeyAndCheck(collate))
    decreases |s|
  {
    var leq, full := ByKey(collate), ByKeyAndCheck(collate);
    FullOrderIsTotal(collate);
    if s != [] {
      var front, last := s[..|s| - 1], s[|s| - 1];
      if leq(last, x) {
        assert full(last, x);
        forall i | 0 <= i < |s|
          ensures full(s[i], x)
        {
          assert i < |s| - 1 ==> full(s[i], last);
        }
      } else {
        InsertKeepsFullOrder(front, x, collate);
        InsertAdds(front, x, leq);
        var inserted := Insert(front, x, leq);
        assert full(x, last);
        forall i | 0 <= i < |inserted|
          ensures full(inserted[i], last)
        {
          assert inserted[i] in multiset(front) + multiset{x};
        }
      }
    }
  }

  /** Sorting by key is stable, so it sorts by key and check. */
  lemma {:induction false} SortGivesFullOrder(s: seq<Finding>, collate: (string, string) -> bool)
    requires TotalOrder(collate) && TiesInOrder(s)
    ensures Ordered(Sort(s, ByKey(collate)), ByKeyAndCheck(collate))
  {
    if s != [] {
      var front, last := s[..|s| - 1], s[|s| - 1];
      SortGivesFullOrder(front, collate);
      SortPermutes(front, ByKey(collate));
      var sorted := Sort(front, ByKey(collate));
      forall i | 0 <= i < |sorted| && SameKey(sorted[i], last)
        ensures Rank(sorted[i].check) <= Rank(last.check)
      {
        assert sorted[i] in multiset(front);
        var j :| 0 <= j < |front| && front[j] == sorted[i];
        assert SameKey(s[j], s[|s| - 1]);
      }
      InsertKeepsFullOrder(sorted, last, collate);
    }
  }

  /** Two lists of the same findings, ties in order, sort to the same list. */
  lemma SortedFindingsAgree(a: seq<Finding>, b: seq<Finding>, collate: (string, string) -> bool)
    requires TotalOrder(collate) && TiesInOrder(a) && TiesInOrder(b) && multiset(a) == multiset(b)
    ensures Sort(a, ByKey(collate)) == Sort(b, ByKey(collate))
  {
    SortGivesFullOrder(a, collate);
    SortGivesFullOrder(b, collate);
    SortPermutes(a, ByKey(collate));
    SortPermutes(b, ByKey(collate));
    FullOrderIsTotal(collate);
    OrderedIsUnique(Sort(a, ByKey(collate)), Sort(b, ByKey(collate)), ByKeyAndCheck(collate));
  }
}

/**
 The shadow report over deliveries: medians per route and app, and the threshold
 that compares the actual with the proposed route. Numbers are exact reals, and
 the collation of texts is any total order.
 */
module ShadowReport {
  import opened Lists
  import opened Sorting
  import opened Texts
  import opened Wrappers

  const MINIMUM_DELIVERIES := 20

  datatype Size = XS | S | OtherSize(size: string)

  datatype Measure = Measure(timeMs: real, certifications: real)

  datatype Delivery = Delivery(
    id: string,
    size: Size,
    app: string,
    actualRoute: string,
    proposedRoute: string,
    actual: Measure,
    proposed: Measure)

  datatype Key = Key(route: string, app: string)

  /** One delivery as seen by one of the two routes. */
  datatype Entry = Entry(key: Key, measure: Measure)

  datatype Median = NoMedian | Middle(value: real)

  datatype Row = Row(key: Key, deliveries: nat, time: Median, certifications: Median)

  datatype Report = Report(
    evaluated: bool,
    eligible: nat,
    rows: seq<Row>,
    actual: Median,
    proposed: Median,
    improvement: Median,
    passed: bool)

  // ----------------------------------------------------------------- medians

  function Ascending(): (real, real) -> bool {
    (a: real, b: real) => a <= b
  }

  function MiddleOf(sorted: seq<real>): real
    requires sorted != []
  {
    var middle := |sorted| / 2;
    if |sorted| % 2 == 1 then sorted[middle] else (sorted[middle - 1] + sorted[middle]) / 2.0
  }

  function MedianOf(values: seq<real>): Median {
    var sorted := Sort(values, Ascending());
    if sorted == [] then NoMedian else Middle(MiddleOf(sorted))
  }

  function AtMost(bound: real): real -> bool {
    (x: real) => x <= bound
  }

  function AtLeast(bound: real): real -> bool {
    (x: real) => x >= bound
  }

  lemma AscendingIsTotal()
    ensures TotalOrder(Ascending())
  {
  }

  lemma {:induction false} PrefixPasses<T>(s: seq<T>, p: T -> bool, k: nat)
    requires k <= |s| && forall i :: 0 <= i < k ==> p(s[i])
    ensures |Filter(s, p)| >= k
  {
    if s != [] {
      PrefixPasses(s[..|s| - 1], p, if k < |s| then k else k - 1);
    }
  }

  lemma {:induction false} SuffixPasses<T>(s: seq<T>, p: T -> bool, k: nat)
    requires k <= |s| && forall i :: k <= i < |s| ==> p(s[i])
    ensures |Filter(s, p)| >= |s| - k
  {
    if k < |s| {
      SuffixPasses(s[..|s| - 1], p, k);
    }
  }

  lemma MiddleBounds(sorted: seq<real>)
    requires Ordered(sorted, Ascending()) && sorted != []
    ensures forall i :: 0 <= i < |sorted| - |sorted| / 2 ==> AtMost(MiddleOf(sorted))(sorted[i])
    ensures forall i :: |sorted| / 2 <= i < |sorted| ==> AtLeast(MiddleOf(sorted))(sorted[i])
  {
    var middle := |sorted| / 2;
    assert |sorted| % 2 == 0 ==> Ascending()(sorted[middle - 1], sorted[middle]);
    forall i | 0 <= i < |sorted|
      ensures i < middle ==> sorted[i] <= sorted[middle]
      ensures i > middle ==> sorted[middle] <= sorted[i]
      ensures |sorted| % 2 == 0 && i < middle - 1 ==> sorted[i] <= sorted[middle - 1]
    {
      assert i < middle ==> Ascending()(sorted[i], sorted[middle]);
      assert i > middle ==> Ascending()(sorted[middle], sorted[i]);
      assert |sorted| % 2 == 0 && i < middle - 1 ==> Ascending()(sorted[i], sorted[middle - 1]);
    }
  }

  lemma SortedHalves(sorted: seq<real>)
    requires Ordered(sorted, Ascending()) && sorted != []
    ensures 2 * |Filter(sorted, AtMost(MiddleOf(sorted)))| >= |sorted|
    ensures 2 * |Filter(sorted, AtLeast(MiddleOf(sorted)))| >= |sorted|
  {
    hide MiddleOf;
    hide AtMost;
    hide AtLeast;
    MiddleBounds(sorted);
    PrefixPasses(sorted, AtMost(MiddleOf(sorted)), |sorted| - |sorted| / 2);
    SuffixPasses(sorted, AtLeast(MiddleOf(sorted)), |sorted| / 2);
  }

  /** At least half of the values lie on each side of the median, which exists exactly for a non-empty list. */
  lemma MedianHalves(values: seq<real>)
    ensures MedianOf(values).Middle? <==> values != []
    ensures values != [] ==>
              var m := MedianOf(values).value;
              && 2 * |Filter(values, AtMost(m))| >= |values|
              && 2 * |Filter(values, AtLeast(m))| >= |values|
  {
    hide TotalOrder;
    hide Ordered;
    hide MiddleOf;
    AscendingIsTotal();
    SortSorts(values, Ascending());
    SortPermutes(values, Ascending());
    if values != [] {
      var sorted := Sort(values, Ascending());
      SortedHalves(sorted);
      FilterPermutes(sorted, values, AtMost(MiddleOf(sorted)));
      FilterPermutes(sorted, values, AtLeast(MiddleOf(sorted)));
    }
  }

  lemma MedianForgetsOrder(a: seq<real>, b: seq<real>)
    requires multiset(a) == multiset(b)
    ensures MedianOf(a) == MedianOf(b)
  {
    AscendingIsTotal();
    SortForgetsOrder(a, b, Ascending());
  }

  // -------------------------------------------------------------- deliveries

  predicate IsMeasure(m: Measure) {
    m.timeMs >= 0.0 && m.certifications >= 0.0
  }

  predicate Valid(d: Delivery) {
    && IsIdentifier(d.id) && IsIdentifier(d.app) && IsIdentifier(d.actualRoute) && IsIdentifier(d.proposedRoute)
    && IsMeasure(d.actual) && IsMeasure(d.proposed)
  }

  function EligibleTest(): Delivery -> bool {
    (d: Delivery) => d.size == XS || d.size == S
  }

  function IdOf(): Delivery -> string {
    (d: Delivery) => d.id
  }

  predicate UniqueIds(deliveries: seq<Delivery>) {
    forall i, j :: 0 <= i < j < |deliveries| ==> deliveries[i].id != deliveries[j].id
  }

  predicate AllValid(deliveries: seq<Delivery>) {
    forall d :: d in deliveries ==> Valid(d)
  }

  function ById(collate: (string, string) -> bool): (Delivery, Delivery) -> bool {
    (a: Delivery, b: Delivery) => collate(a.id, b.id)
  }

  function Eligible(deliveries: seq<Delivery>, collate: (string, string) -> bool): seq<Delivery> {
    Sort(Filter(deliveries, EligibleTest()), ById(collate))
  }

  function EntriesOf(): Delivery -> seq<Entry> {
    (d: Delivery) => [Entry(Key(d.actualRoute, d.app), d.actual), Entry(Key(d.proposedRoute, d.app), d.proposed)]
  }

  function KeyOf(): Entry -> Key {
    (e: Entry) => e.key
  }

  function TimeOf(): Entry -> seq<real> {
    (e: Entry) => [e.measure.timeMs]
  }

  function CertificationsOf(): Entry -> seq<real> {
    (e: Entry) => [e.measure.certifications]
  }

  function ActualTime(): Delivery -> seq<real> {
    (d: Delivery) => [d.actual.timeMs]
  }

  function ProposedTime(): Delivery -> seq<real> {
    (d: Delivery) => [d.proposed.timeMs]
  }

  /** The keys in the order in which they first occur. */
  function FirstKeys(entries: seq<Entry>): seq<Key> {
    if entries == [] then []
    else
      var keys := FirstKeys(entries[..|entries| - 1]);
      var key := entries[|entries| - 1].key;
      if key in keys then keys else keys + [key]
  }

  predicate KeyLeq(a: Key, b: Key, collate: (string, string) -> bool) {
    if a.route == b.route then collate(a.app, b.app) else collate(a.route, b.route)
  }

  function ByKey(collate: (string, string) -> bool): (Key, Key) -> bool {
    (a: Key, b: Key) => KeyLeq(a, b, collate)
  }

  function RowOf(entries: seq<Entry>, key: Key): Row {
    var group := Filter(entries, KeyTest(KeyOf(), key));
    Row(key, |group|, MedianOf(FlatMap(group, TimeOf())), MedianOf(FlatMap(group, CertificationsOf())))
  }

  function RowsOf(entries: seq<Entry>, keys: seq<Key>): (rows: seq<Row>)
    ensures |rows| == |keys| && forall i :: 0 <= i < |keys| ==> rows[i] == RowOf(entries, keys[i])
  {
    if keys == [] then [] else RowsOf(entries, keys[..|keys| - 1]) + [RowOf(entries, keys[|keys| - 1])]
  }

  // ---------------------------------------------------------------- the report

  function Round2(value: real): real {
    (value * 100.0 + 0.5).Floor as real / 100.0
  }

  /** The improvement in percent; there is none without a positive actual median. */
  function Observed(actual: Median, proposed: Median): Median {
    if actual.Middle? && actual.value > 0.0 && proposed.Middle? then
      Middle((actual.value - proposed.value) / actual.value * 100.0)
    else NoMedian
  }

  function Summary(eligible: seq<Delivery>, collate: (string, string) -> bool): Report {
    var entries := FlatMap(eligible, EntriesOf());
    var actual := MedianOf(FlatMap(eligible, ActualTime()));
    var proposed := MedianOf(FlatMap(eligible, ProposedTime()));
    var observed := Observed(actual, proposed);
    var evaluated := |eligible| >= MINIMUM_DELIVERIES;
    Report(evaluated, |eligible|, RowsOf(entries, Sort(FirstKeys(entries), ByKey(collate))), actual, proposed,
           if observed.Middle? then Middle(Round2(observed.value)) else NoMedian,
           evaluated && observed.Middle? && observed.value >= 50.0)
  }

  /** The report, or none when an eligible delivery is invalid or two share an id. */
  function Reported(deliveries: seq<Delivery>, collate: (string, string) -> bool): Option<Report> {
    var eligible := Eligible(deliveries, collate);
    if AllValid(eligible) && UniqueIds(eligible) then Some(Summary(eligible, collate)) else None
  }

  /** The threshold without the percentage: 20 deliveries, a positive median, and at most half of it proposed. */
  lemma ThresholdMeans(eligible: seq<Delivery>, collate: (string, string) -> bool)
    ensures var report := Summary(eligible, collate);
            report.passed <==>
              && |eligible| >= MINIMUM_DELIVERIES
              && report.actual.Middle? && report.actual.value > 0.0
              && report.proposed.Middle? && 2.0 * report.proposed.value <= report.actual.value
  {
    hide MedianOf;
    hide RowsOf;
    var report := Summary(eligible, collate);
    if report.actual.Middle? && report.actual.value > 0.0 && report.proposed.Middle? {
      HalfMeansFifty(report.actual.value, report.proposed.value);
    }
  }

  lemma HalfMeansFifty(a: real, p: real)
    requires a > 0.0
    ensures (a - p) / a * 100.0 >= 50.0 <==> 2.0 * p <= a
  {
    var r := (a - p) / a;
    assert r * a == a - p;
    if r >= 0.5 {
      assert (r - 0.5) * a >= 0.0;
    } else {
      assert (0.5 - r) * a > 0.0;
    }
  }

  // ------------------------------------------------------- order is forgotten

  lemma ByKeyIsTotal(collate: (string, string) -> bool)
    requires TotalOrder(collate)
    ensures TotalOrder(ByKey(collate))
  {
    var leq := ByKey(collate);
    forall a, b
      ensures leq(a, b) || leq(b, a)
      ensures leq(a, b) && leq(b, a) ==> a == b
    {
    }
    forall a, b, c | leq(a, b) && leq(b, c)
      ensures leq(a, c)
    {
    }
  }

  /** The first keys are the keys of the entries, each once. */
  lemma {:induction false} FirstKeysAreKeys(entries: seq<Entry>)
    ensures Distinct(FirstKeys(entries))
    ensures forall k :: k in FirstKeys(entries) <==> exists e :: e in entries && e.key == k
  {
    if entries != [] {
      var front, last := entries[..|entries| - 1], entries[|entries| - 1];
      FirstKeysAreKeys(front);
      assert entries == front + [last];
      forall k
        ensures k in FirstKeys(entries) <==> exists e :: e in entries && e.key == k
      {
        if k in FirstKeys(front) {
          var e :| e in front && e.key == k;
          assert e in entries;
        }
        if e :| e in entries && e.key == k {
          assert e in front || e == last;
        }
        assert last in entries;
      }
    }
  }

  lemma {:induction false} DistinctCounts<K(!new)>(keys: seq<K>)
    requires Distinct(keys)
    ensures forall k :: multiset(keys)[k] == if k in keys then 1 else 0
  {
    if keys != [] {
      var front, last := keys[..|keys| - 1], keys[|keys| - 1];
      DistinctCounts(front);
      SplitLast(keys);
      assert keys == front + [last];
      assert last !in front;
    }
  }

  lemma FirstKeysForgetOrder(a: seq<Entry>, b: seq<Entry>)
    requires multiset(a) == multiset(b)
    ensures multiset(FirstKeys(a)) == multiset(FirstKeys(b))
  {
    hide FirstKeys;
    FirstKeysAreKeys(a);
    FirstKeysAreKeys(b);
    forall e: Entry { SamePermutation(a, b, e); }
    DistinctCounts(FirstKeys(a));
    DistinctCounts(FirstKeys(b));
    forall k
      ensures multiset(FirstKeys(a))[k] == multiset(FirstKeys(b))[k]
    {
      assert k in FirstKeys(a) <==> k in FirstKeys(b);
    }
  }

  lemma RowForgetsOrder(a: seq<Entry>, b: seq<Entry>, key: Key)
    requires multiset(a) == multiset(b)
    ensures RowOf(a, key) == RowOf(b, key)
  {
    hide MedianOf;
    var groupA, groupB := Filter(a, KeyTest(KeyOf(), key)), Filter(b, KeyTest(KeyOf(), key));
    FilterPermutes(a, b, KeyTest(KeyOf(), key));
    FlatMapPermutes(groupA, groupB, TimeOf());
    FlatMapPermutes(groupA, groupB, CertificationsOf());
    MedianForgetsOrder(FlatMap(groupA, TimeOf()), FlatMap(groupB, TimeOf()));
    MedianForgetsOrder(FlatMap(groupA, CertificationsOf()), FlatMap(groupB, CertificationsOf()));
  }

  lemma {:induction false} RowsForgetOrder(a: seq<Entry>, b: seq<Entry>, keys: seq<Key>)
    requires multiset(a) == multiset(b)
    ensures RowsOf(a, keys) == RowsOf(b, keys)
  {
    hide RowOf;
    if keys != [] {
      RowsForgetOrder(a, b, keys[..|keys| - 1]);
      RowForgetsOrder(a, b, keys[|keys| - 1]);
    }
  }

  lemma SummaryForgetsOrder(a: seq<Delivery>, b: seq<Delivery>, collate: (string, string) -> bool)
    requires TotalOrder(collate) && multiset(a) == multiset(b)
    ensures Summary(a, collate) == Summary(b, collate)
  {
    hide MedianOf;
    hide RowsOf;
    hide FirstKeys;
    hide TotalOrder;
    assert |multiset(a)| == |a| && |multiset(b)| == |b|;
    var entriesA, entriesB := FlatMap(a, EntriesOf()), FlatMap(b, EntriesOf());
    FlatMapPermutes(a, b, EntriesOf());
    FlatMapPermutes(a, b, ActualTime());
    FlatMapPermutes(a, b, ProposedTime());
    MedianForgetsOrder(FlatMap(a, ActualTime()), FlatMap(b, ActualTime()));
    MedianForgetsOrder(FlatMap(a, ProposedTime()), FlatMap(b, ProposedTime()));
    FirstKeysForgetOrder(entriesA, entriesB);
    ByKeyIsTotal(collate);
    SortForgetsOrder(FirstKeys(entriesA), FirstKeys(entriesB), ByKey(collate));
    RowsForgetOrder(entriesA, entriesB, Sort(FirstKeys(entriesA), ByKey(collate)));
  }

  lemma UniqueByCount(deliveries: seq<Delivery>)
    ensures UniqueIds(deliveries) <==>
            forall d :: d in deliveries ==> |Filter(deliveries, KeyTest(IdOf(), d.id))| < 2
  {
    forall d | d in deliveries {
      TwoPass(deliveries, KeyTest(IdOf(), d.id));
    }
    if UniqueIds(deliveries) {
      forall d | d in deliveries
        ensures |Filter(deliveries, KeyTest(IdOf(), d.id))| < 2
      {
      }
    } else {
      var i, j :| 0 <= i < j < |deliveries| && deliveries[i].id == deliveries[j].id;
      var test := KeyTest(IdOf(), deliveries[i].id);
      TwoPass(deliveries, test);
      assert test(deliveries[i]) && test(deliveries[j]);
      assert deliveries[i] in deliveries;
    }
  }

  lemma AcceptanceForgetsOrder(a: seq<Delivery>, b: seq<Delivery>)
    requires multiset(a) == multiset(b)
    ensures AllValid(a) == AllValid(b) && UniqueIds(a) == UniqueIds(b)
  {
    hide UniqueIds;
    hide Valid;
    UniqueByCount(a);
    UniqueByCount(b);
    forall d: Delivery { SamePermutation(a, b, d); }
    forall d | d in a {
      FilterPermutes(a, b, KeyTest(IdOf(), d.id));
    }
  }

  /** Any order of the same deliveries gives the same report, or none. */
  lemma ReportForgetsOrder(a: seq<Delivery>, b: seq<Delivery>, collate: (string, string) -> bool)
    requires TotalOrder(collate) && multiset(a) == multiset(b)
    ensures Reported(a, collate) == Reported(b, collate)
  {
    hide TotalOrder;
    hide Summary;
    hide AllValid;
    hide UniqueIds;
    FilterPermutes(a, b, EligibleTest());
    SortPermutes(Filter(a, EligibleTest()), ById(collate));
    SortPermutes(Filter(b, EligibleTest()), ById(collate));
    AcceptanceForgetsOrder(Eligible(a, collate), Eligible(b, collate));
    SummaryForgetsOrder(Eligible(a, collate), Eligible(b, collate), collate);
  }

  // ------------------------------------------------------------- group counts

  function TotalDeliveries(rows: seq<Row>): nat {
    if rows == [] then 0 else TotalDeliveries(rows[..|rows| - 1]) + rows[|rows| - 1].deliveries
  }

  lemma RowsGrow(entries: seq<Entry>, keys: seq<Key>, n: nat)
    requires n < |keys|
    ensures TotalDeliveries(RowsOf(entries, keys[..n + 1]))
            == TotalDeliveries(RowsOf(entries, keys[..n])) + |Filter(entries, KeyTest(KeyOf(), keys[n]))|
  {
    hide MedianOf;
    hide KeyTest;
    assert keys[..n + 1][..n] == keys[..n];
    var rows := RowsOf(entries, keys[..n + 1]);
    assert rows[..|rows| - 1] == RowsOf(entries, keys[..n]);
  }

  /** The rows of the first keys count the entries of those keys. */
  predicate CountsFirst(entries: seq<Entry>, keys: seq<Key>, n: nat)
    requires n <= |keys|
  {
    TotalDeliveries(RowsOf(entries, keys[..n])) == |Filter(entries, InFirst(KeyOf(), keys, n))|
  }

  lemma {:induction false} RowsCount(entries: seq<Entry>, keys: seq<Key>, n: nat)
    requires Distinct(keys) && n <= |keys|
    ensures CountsFirst(entries, keys, n)
  {
    hide Distinct;
    hide CountsFirst;
    if n == 0 {
      NoRows(entries, keys);
    } else {
      RowsCount(entries, keys, n - 1);
      RowsCountOneMore(entries, keys, n - 1);
    }
  }

  lemma RowsCountOneMore(entries: seq<Entry>, keys: seq<Key>, n: nat)
    requires Distinct(keys) && n < |keys| && CountsFirst(entries, keys, n)
    ensures CountsFirst(entries, keys, n + 1)
  {
    hide Distinct;
    hide RowsOf;
    hide TotalDeliveries;
    hide InFirst;
    hide KeyTest;
    hide KeyOf;
    hide Filter;
    GroupCounts(entries, keys, n);
    RowsGrow(entries, keys, n);
  }

  lemma NoRows(entries: seq<Entry>, keys: seq<Key>)
    ensures CountsFirst(entries, keys, 0)
  {
    assert keys[..0] == [];
    FilterNone(entries, InFirst(KeyOf(), keys, 0));
  }

  lemma GroupCounts(entries: seq<Entry>, keys: seq<Key>, n: nat)
    requires Distinct(keys) && n < |keys|
    ensures |Filter(entries, InFirst(KeyOf(), keys, n + 1))|
            == |Filter(entries, InFirst(KeyOf(), keys, n))| + |Filter(entries, KeyTest(KeyOf(), keys[n]))|
  {
    var more, less, one := InFirst(KeyOf(), keys, n + 1), InFirst(KeyOf(), keys, n), KeyTest(KeyOf(), keys[n]);
    assert keys[..n + 1] == keys[..n] + [keys[n]];
    FilterSplits(entries, more, less, one);
    hide Filter;
    assert |multiset(Filter(entries, more))| == |multiset(Filter(entries, less))| + |multiset(Filter(entries, one))|;
  }

  lemma {:induction false} TwoEntriesEach(eligible: seq<Delivery>)
    ensures |FlatMap(eligible, EntriesOf())| == 2 * |eligible|
  {
    if eligible != [] {
      TwoEntriesEach(eligible[..|eligible| - 1]);
    }
  }

  /** Every eligible delivery is counted once for each route: the rows sum to twice their number. */
  lemma RowsCountTwice(eligible: seq<Delivery>, collate: (string, string) -> bool)
    ensures TotalDeliveries(Summary(eligible, collate).rows) == 2 * |eligible|
  {
    hide RowsOf;
    hide MedianOf;
    hide FirstKeys;
    var entries := FlatMap(eligible, EntriesOf());
    var keys := FirstKeys(entries);
    var sorted := Sort(keys, ByKey(collate));
    FirstKeysAreKeys(entries);
    SortPermutes(keys, ByKey(collate));
    DistinctPermutes(keys, sorted);
    RowsCount(entries, sorted, |sorted|);
    assert sorted[..|sorted|] == sorted;
    forall i | 0 <= i < |entries|
      ensures InFirst(KeyOf(), sorted, |sorted|)(entries[i])
    {
      assert entries[i] in entries;
      SamePermutation(keys, sorted, entries[i].key);
    }
    FilterAll(entries, InFirst(KeyOf(), sorted, |sorted|));
    TwoEntriesEach(eligible);
  }

  lemma DistinctPermutes<K(!new)>(a: seq<K>, b: seq<K>)
    requires Distinct(a) && multiset(a) == multiset(b)
    ensures Distinct(b)
  {
    DistinctCounts(a);
    forall i, j | 0 <= i < j < |b|
      ensures b[i] != b[j]
    {
      RepeatCounts(b, i, j);
    }
  }

  lemma RepeatCounts<K(!new)>(b: seq<K>, i: nat, j: nat)
    requires i < j < |b|
    ensures b[i] == b[j] ==> multiset(b)[b[i]] >= 2
  {
    assert b == b[..j] + ([b[j]] + b[j + 1..]);
    assert b[i] == b[..j][i];
    assert b[i] in multiset(b[..j]);
  }

  // ------------------------------------------------------- building the report

  datatype Group = Group(times: seq<real>, certifications: seq<real>)

  /** The groups hold, for every key met, the times and counts of its entries in order. */
  ghost predicate Holds(keys: seq<Key>, groups: map<Key, Group>, entries: seq<Entry>) {
    && keys == FirstKeys(entries)
    && (forall k :: k in keys <==> k in groups)
    && forall k :: k in groups ==> groups[k] == GroupOf(entries, k)
  }

  function GroupOf(entries: seq<Entry>, key: Key): Group {
    var ofKey := Filter(entries, KeyTest(KeyOf(), key));
    Group(FlatMap(ofKey, TimeOf()), FlatMap(ofKey, CertificationsOf()))
  }

  lemma GroupOfGrows(entries: seq<Entry>, entry: Entry, key: Key)
    ensures GroupOf(entries + [entry], key) ==
            if entry.key != key then GroupOf(entries, key)
            else Group(GroupOf(entries, key).times + [entry.measure.timeMs],
                       GroupOf(entries, key).certifications + [entry.measure.certifications])
  {
    var all := entries + [entry];
    assert all[..|all| - 1] == entries;
    var ofKey := Filter(entries, KeyTest(KeyOf(), key));
    if entry.key == key {
      assert (ofKey + [entry])[..|ofKey|] == ofKey;
    }
  }

  lemma NewKeyIsEmpty(entries: seq<Entry>, key: Key)
    requires key !in FirstKeys(entries)
    ensures GroupOf(entries, key) == Group([], [])
  {
    FirstKeysAreKeys(entries);
    forall i | 0 <= i < |entries|
      ensures !KeyTest(KeyOf(), key)(entries[i])
    {
      assert entries[i] in entries;
    }
    FilterNone(entries, KeyTest(KeyOf(), key));
  }

  lemma FirstKeysGrow(entries: seq<Entry>, entry: Entry)
    ensures FirstKeys(entries + [entry])
            == if entry.key in FirstKeys(entries) then FirstKeys(entries) else FirstKeys(entries) + [entry.key]
  {
    assert (entries + [entry])[..|entries|] == entries;
  }

  method AddEntry(keys: seq<Key>, groups: map<Key, Group>, ghost entries: seq<Entry>, entry: Entry)
    returns (newKeys: seq<Key>, newGroups: map<Key, Group>)
    requires Holds(keys, groups, entries)
    ensures Holds(newKeys, newGroups, entries + [entry])
  {
    hide GroupOf;
    var group := if entry.key in groups then groups[entry.key] else Group([], []);
    if entry.key !in groups {
      NewKeyIsEmpty(entries, entry.key);
    }
    newKeys := if entry.key in groups then keys else keys + [entry.key];
    newGroups := groups[entry.key := Group(group.times + [entry.measure.timeMs],
                                           group.certifications + [entry.measure.certifications])];
    FirstKeysGrow(entries, entry);
    hide FirstKeys;
    forall k | k in newGroups
      ensures newGroups[k] == GroupOf(entries + [entry], k)
    {
      GroupOfGrows(entries, entry, k);
    }
  }

  /** Both routes of one delivery. */
  method AddDelivery(keys: seq<Key>, groups: map<Key, Group>, ghost entries: seq<Entry>, d: Delivery)
    returns (newKeys: seq<Key>, newGroups: map<Key, Group>)
    requires Holds(keys, groups, entries)
    ensures Holds(newKeys, newGroups, entries + EntriesOf()(d))
  {
    hide Holds;
    var actual, proposed := Entry(Key(d.actualRoute, d.app), d.actual), Entry(Key(d.proposedRoute, d.app), d.proposed);
    newKeys, newGroups := AddEntry(keys, groups, entries, actual);
    newKeys, newGroups := AddEntry(newKeys, newGroups, entries + [actual], proposed);
    assert entries + [actual] + [proposed] == entries + [actual, proposed];
  }

  method GroupDeliveries(eligible: seq<Delivery>) returns (keys: seq<Key>, groups: map<Key, Group>)
    ensures Holds(keys, groups, FlatMap(eligible, EntriesOf()))
  {
    keys, groups := [], map[];
    assert Holds(keys, groups, []);
    hide Holds;
    hide EntriesOf;
    for i := 0 to |eligible|
      invariant Holds(keys, groups, FlatMap(eligible[..i], EntriesOf()))
    {
      assert eligible[..i + 1][..i] == eligible[..i];
      keys, groups := AddDelivery(keys, groups, FlatMap(eligible[..i], EntriesOf()), eligible[i]);
    }
    assert eligible[..|eligible|] == eligible;
  }

  lemma RowOfGroup(entries: seq<Entry>, key: Key)
    ensures var group := GroupOf(entries, key);
            RowOf(entries, key) == Row(key, |group.times|, MedianOf(group.times), MedianOf(group.certifications))
  {
    OneTimeEach(Filter(entries, KeyTest(KeyOf(), key)));
  }

  method BuildRows(keys: seq<Key>, groups: map<Key, Group>, ghost entries: seq<Entry>) returns (rows: seq<Row>)
    requires forall k :: k in keys ==> k in groups && groups[k] == GroupOf(entries, k)
    ensures rows == RowsOf(entries, keys)
  {
    hide GroupOf;
    hide MedianOf;
    rows := [];
    for i := 0 to |keys|
      invariant rows == RowsOf(entries, keys[..i])
    {
      assert keys[..i + 1][..i] == keys[..i];
      var group := groups[keys[i]];
      RowOfGroup(entries, keys[i]);
      rows := rows + [Row(keys[i], |group.times|, MedianOf(group.times), MedianOf(group.certifications))];
    }
    assert keys[..|keys|] == keys;
  }

  lemma {:induction false} OneTimeEach(entries: seq<Entry>)
    ensures |FlatMap(entries, TimeOf())| == |entries|
  {
    if entries != [] {
      OneTimeEach(entries[..|entries| - 1]);
    }
  }

  method CollectTimes(eligible: seq<Delivery>) returns (actual: seq<real>, proposed: seq<real>)
    ensures actual == FlatMap(eligible, ActualTime()) && proposed == FlatMap(eligible, ProposedTime())
  {
    actual, proposed := [], [];
    for i := 0 to |eligible|
      invariant actual == FlatMap(eligible[..i], ActualTime()) && proposed == FlatMap(eligible[..i], ProposedTime())
    {
      assert eligible[..i + 1][..i] == eligible[..i];
      actual := actual + [eligible[i].actual.timeMs];
      proposed := proposed + [eligible[i].proposed.timeMs];
    }
    assert eligible[..|eligible|] == eligible;
  }

  method IdsAreUnique(eligible: seq<Delivery>) returns (unique: bool)
    ensures unique == UniqueIds(eligible)
  {
    var ids: set<string> := {};
    for i := 0 to |eligible|
      invariant forall id :: id in ids <==> exists j :: 0 <= j < i && eligible[j].id == id
      invariant forall j, k :: 0 <= j < k < i ==> eligible[j].id != eligible[k].id
    {
      if eligible[i].id in ids {
        return false;
      }
      ids := ids + {eligible[i].id};
    }
    return true;
  }

  /** What remains once the eligible deliveries are accepted. */
  method Summarize(eligible: seq<Delivery>, collate: (string, string) -> bool) returns (report: Report)
    ensures report == Summary(eligible, collate)
  {
    hide MedianOf;
    hide RowsOf;
    hide Observed;
    hide GroupOf;
    var keys, groups := GroupDeliveries(eligible);
    var sorted := Sort(keys, ByKey(collate));
    SortPermutes(keys, ByKey(collate));
    forall k | k in sorted
      ensures k in groups
    {
      SamePermutation(keys, sorted, k);
    }
    var rows := BuildRows(sorted, groups, FlatMap(eligible, EntriesOf()));
    var actualTimes, proposedTimes := CollectTimes(eligible);
    var actual, proposed := MedianOf(actualTimes), MedianOf(proposedTimes);
    var observed := Observed(actual, proposed);
    var evaluated := |eligible| >= MINIMUM_DELIVERIES;
    report := Report(evaluated, |eligible|, rows, actual, proposed,
                     if observed.Middle? then Middle(Round2(observed.value)) else NoMedian,
                     evaluated && observed.Middle? && observed.value >= 50.0);
  }

  method BuildShadowReport(deliveries: seq<Delivery>, collate: (string, string) -> bool)
    returns (report: Option<Report>)
    ensures report == Reported(deliveries, collate)
  {
    hide UniqueIds;
    hide Summary;
    hide Valid;
    var eligible := Eligible(deliveries, collate);
    if exists d :: d in eligible && !Valid(d) {
      return None;
    }
    var unique := IdsAreUnique(eligible);
    if !unique {
      return None;
    }
    var summary := Summarize(eligible, collate);
    return Some(summary);
  }
}

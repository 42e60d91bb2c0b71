/**
 Base drift: a NUL-separated stream of change records becomes the sorted set of
 the paths it mentions, and two such sets decide whether a review survives.
 `leq` is the order by which texts are sorted, any total order.
 */
module BaseDrift {
  import opened Lists
  import opened Sorting
  import opened Wrappers

  const NUL := '\0'

  /** One change: a status with its one path, or with both paths of a rename or copy. */
  datatype Record = Record(status: string, paths: seq<string>)

  predicate IsStatus(s: string) {
    && s != "" && 'A' <= s[0] <= 'Z'
    && forall i :: 1 <= i < |s| ==> '0' <= s[i] <= '9'
  }

  function Arity(status: string): nat
    requires IsStatus(status)
  {
    if status[0] == 'R' || status[0] == 'C' then 2 else 1
  }

  predicate IsPath(path: string) {
    path != "" && NUL !in path
  }

  predicate ValidRecord(r: Record) {
    IsStatus(r.status) && |r.paths| == Arity(r.status) && forall i :: 0 <= i < |r.paths| ==> IsPath(r.paths[i])
  }

  predicate ValidRecords(records: seq<Record>) {
    forall i :: 0 <= i < |records| ==> ValidRecord(records[i])
  }

  // ------------------------------------------------------- fields and streams

  /** `stream.split("\0")` */
  function Split(stream: string): (fields: seq<string>)
    ensures fields != []
    decreases |stream|
  {
    if stream == "" then [""]
    else
      var rest := Split(stream[1..]);
      if stream[0] == NUL then [""] + rest else [[stream[0]] + rest[0]] + rest[1..]
  }

  /** Every field with its closing NUL. */
  function Terminated(fields: seq<string>): string {
    if fields == [] then "" else fields[0] + [NUL] + Terminated(fields[1..])
  }

  predicate Clean(fields: seq<string>) {
    forall i :: 0 <= i < |fields| ==> NUL !in fields[i]
  }

  lemma {:induction false} SplitIsClean(stream: string)
    ensures Clean(Split(stream))
    decreases |stream|
  {
    if stream != "" {
      var rest := Split(stream[1..]);
      SplitIsClean(stream[1..]);
      forall i | 0 <= i < |Split(stream)|
        ensures NUL !in Split(stream)[i]
      {
        if i > 0 {
          assert Split(stream)[i] == if stream[0] == NUL then rest[i - 1] else rest[i];
        }
      }
    }
  }

  lemma {:induction false} SplitField(field: string, stream: string)
    requires NUL !in field
    ensures Split(field + [NUL] + stream) == [field] + Split(stream)
    decreases |field|
  {
    var whole := field + [NUL] + stream;
    if field == "" {
      assert whole[1..] == stream;
    } else {
      assert whole[0] == field[0] && whole[1..] == field[1..] + [NUL] + stream;
      SplitField(field[1..], stream);
      assert field == [field[0]] + field[1..];
    }
  }

  /** Clean fields, terminated, split back into themselves and an empty last one. */
  lemma {:induction false} SplitTerminated(fields: seq<string>)
    requires Clean(fields)
    ensures Split(Terminated(fields)) == fields + [""]
    decreases |fields|
  {
    if fields != [] {
      SplitTerminated(fields[1..]);
      SplitField(fields[0], Terminated(fields[1..]));
      assert fields + [""] == [fields[0]] + (fields[1..] + [""]);
    }
  }

  lemma TerminatedGrows(c: char, fields: seq<string>)
    requires fields != []
    ensures Terminated([[c] + fields[0]] + fields[1..]) == [c] + Terminated(fields)
  {
    var grown := [[c] + fields[0]] + fields[1..];
    assert grown[0] == [c] + fields[0] && grown[1..] == fields[1..];
    assert Terminated(grown) == grown[0] + [NUL] + Terminated(grown[1..]);
    PrependTo(c, fields[0], Terminated(fields[1..]));
  }

  lemma PrependTo(c: char, field: string, rest: string)
    ensures ([c] + field) + [NUL] + rest == [c] + (field + [NUL] + rest)
  {
  }

  /** A stream whose last field is empty is the termination of the others. */
  lemma {:induction false} TerminatedSplit(stream: string)
    requires Split(stream)[|Split(stream)| - 1] == ""
    ensures Terminated(Split(stream)[..|Split(stream)| - 1]) == stream
    decreases |stream|
  {
    if stream != "" {
      var rest := Split(stream[1..]);
      var all := Split(stream);
      var front := rest[..|rest| - 1];
      assert stream == [stream[0]] + stream[1..];
      if stream[0] == NUL {
        TerminatedSplit(stream[1..]);
        assert all[..|all| - 1] == [""] + front;
        assert ([""] + front)[1..] == front;
      } else {
        assert |rest| > 1;
        TerminatedSplit(stream[1..]);
        assert all[..|all| - 1] == [[stream[0]] + front[0]] + front[1..];
        TerminatedGrows(stream[0], front);
      }
    }
  }

  // ------------------------------------------------------------ record parsing

  function FieldsOf(records: seq<Record>): seq<string> {
    if records == [] then [] else [records[0].status] + records[0].paths + FieldsOf(records[1..])
  }

  function Print(records: seq<Record>): string {
    Terminated(FieldsOf(records))
  }

  predicate Readable(fields: seq<string>)
    requires fields != []
  {
    && IsStatus(fields[0]) && Arity(fields[0]) < |fields|
    && forall i :: 1 <= i <= Arity(fields[0]) ==> fields[i] != ""
  }

  /** The records the fields spell, if they spell any. */
  function Records(fields: seq<string>): Option<seq<Record>>
    decreases |fields|
  {
    if fields == [] then Some([])
    else if !Readable(fields) then None
    else
      var n := Arity(fields[0]);
      match Records(fields[n + 1..])
      case None => None
      case Some(rest) => Some([Record(fields[0], fields[1..n + 1])] + rest)
  }

  function Parsed(stream: string): Option<seq<Record>> {
    var fields := Split(stream);
    if fields[|fields| - 1] != "" then None else Records(fields[..|fields| - 1])
  }

  lemma {:induction false} FieldsAreClean(records: seq<Record>)
    requires ValidRecords(records)
    ensures Clean(FieldsOf(records))
  {
    if records != [] {
      FieldsAreClean(records[1..]);
      var r := records[0];
      assert ValidRecord(r);
      StatusIsClean(r.status);
      forall i | 0 <= i < |FieldsOf(records)|
        ensures NUL !in FieldsOf(records)[i]
      {
        if 1 <= i <= |r.paths| {
          assert FieldsOf(records)[i] == r.paths[i - 1];
        } else if i > |r.paths| {
          assert FieldsOf(records)[i] == FieldsOf(records[1..])[i - 1 - |r.paths|];
        }
      }
    }
  }

  lemma StatusIsClean(status: string)
    requires IsStatus(status)
    ensures NUL !in status
  {
  }

  /** Valid records are read back from their fields. */
  lemma {:induction false} RecordsOfFields(records: seq<Record>)
    requires ValidRecords(records)
    ensures Records(FieldsOf(records)) == Some(records)
  {
    if records != [] {
      RecordsOfFields(records[1..]);
      var r := records[0];
      var fields := FieldsOf(records);
      assert ValidRecord(r) && fields[0] == r.status;
      assert fields[1..|r.paths| + 1] == r.paths && fields[|r.paths| + 1..] == FieldsOf(records[1..]);
      forall i | 1 <= i <= Arity(fields[0])
        ensures fields[i] != ""
      {
        assert fields[i] == r.paths[i - 1];
      }
      assert [Record(fields[0], r.paths)] + records[1..] == records;
    }
  }

  /** What is read is valid, and its fields are those read. */
  lemma {:induction false} FieldsOfRecords(fields: seq<string>)
    requires Clean(fields) && Records(fields).Some?
    ensures ValidRecords(Records(fields).value) && FieldsOf(Records(fields).value) == fields
    decreases |fields|
  {
    if fields != [] {
      var n := Arity(fields[0]);
      assert Clean(fields[n + 1..]);
      FieldsOfRecords(fields[n + 1..]);
      var rest := Records(fields[n + 1..]).value;
      FirstRecordIsValid(fields);
      hide Clean;
      hide Arity;
      hide ValidRecord;
      hide IsStatus;
      AddRecord(Record(fields[0], fields[1..n + 1]), rest);
      CutFields(fields, n);
    }
  }

  lemma FirstRecordIsValid(fields: seq<string>)
    requires fields != [] && Clean(fields) && Readable(fields)
    ensures ValidRecord(Record(fields[0], fields[1..Arity(fields[0]) + 1]))
  {
    hide IsStatus;
  }

  lemma AddRecord(r: Record, rest: seq<Record>)
    requires ValidRecord(r) && ValidRecords(rest)
    ensures ValidRecords([r] + rest) && FieldsOf([r] + rest) == [r.status] + r.paths + FieldsOf(rest)
  {
    hide ValidRecord;
    assert ([r] + rest)[1..] == rest;
  }

  lemma CutFields(fields: seq<string>, n: nat)
    requires n < |fields|
    ensures [fields[0]] + fields[1..n + 1] + fields[n + 1..] == fields
  {
  }

  /** The parser reads every printed stream back, and accepts no other stream. */
  lemma ParserAcceptsExactly(stream: string)
    ensures Parsed(stream).Some? <==> exists records :: ValidRecords(records) && stream == Print(records)
    ensures Parsed(stream).Some? ==> ValidRecords(Parsed(stream).value) && Print(Parsed(stream).value) == stream
  {
    var fields := Split(stream);
    if Parsed(stream).Some? {
      var front := fields[..|fields| - 1];
      SplitIsClean(stream);
      FieldsOfRecords(front);
      TerminatedSplit(stream);
    }
    forall records | ValidRecords(records) && stream == Print(records)
      ensures Parsed(stream).Some?
    {
      PrintedIsRead(records);
    }
  }

  lemma PrintedIsRead(records: seq<Record>)
    requires ValidRecords(records)
    ensures Parsed(Print(records)) == Some(records)
  {
    FieldsAreClean(records);
    SplitTerminated(FieldsOf(records));
    RecordsOfFields(records);
    assert (FieldsOf(records) + [""])[..|FieldsOf(records)|] == FieldsOf(records);
  }

  // ------------------------------------------------------------- changed paths

  function Mentioned(records: seq<Record>): seq<string> {
    if records == [] then [] else records[0].paths + Mentioned(records[1..])
  }

  /** `[...new Set(paths)]` */
  function Once(paths: seq<string>): seq<string> {
    if paths == [] then []
    else
      var front := Once(paths[..|paths| - 1]);
      if paths[|paths| - 1] in front then front else front + [paths[|paths| - 1]]
  }

  lemma {:induction false} OnceIsSet(paths: seq<string>)
    ensures Distinct(Once(paths)) && forall p :: p in Once(paths) <==> p in paths
  {
    if paths != [] {
      OnceIsSet(paths[..|paths| - 1]);
      assert paths == paths[..|paths| - 1] + [paths[|paths| - 1]];
    }
  }

  /** The sorted list of the paths mentioned. */
  function PathsOf(records: seq<Record>, leq: (string, string) -> bool): seq<string> {
    Sort(Once(Mentioned(records)), leq)
  }

  /** It is ordered and holds exactly the paths mentioned, rename sources included. */
  lemma PathsAreMentioned(records: seq<Record>, leq: (string, string) -> bool)
    requires TotalOrder(leq)
    ensures Ordered(PathsOf(records, leq), leq)
    ensures forall p :: p in PathsOf(records, leq) <==> exists i :: 0 <= i < |records| && p in records[i].paths
  {
    hide TotalOrder;
    var once := Once(Mentioned(records));
    SortSorts(once, leq);
    OnceIsSet(Mentioned(records));
    forall p
      ensures p in PathsOf(records, leq) <==> exists i :: 0 <= i < |records| && p in records[i].paths
    {
      SamePermutation(once, PathsOf(records, leq), p);
      MentionedMeans(records, p);
    }
  }

  lemma {:induction false} MentionedMeans(records: seq<Record>, p: string)
    ensures p in Mentioned(records) <==> exists i :: 0 <= i < |records| && p in records[i].paths
  {
    if records != [] {
      var rest := records[1..];
      MentionedMeans(rest, p);
      if i :| 0 <= i < |rest| && p in rest[i].paths {
        assert p in records[i + 1].paths;
      }
      if i :| 0 <= i < |records| && p in records[i].paths {
        assert i > 0 ==> p in rest[i - 1].paths;
      }
    }
  }

  /** Reads `count` non-empty fields. */
  method TakePaths(fields: seq<string>, start: nat, count: nat) returns (taken: Option<seq<string>>)
    ensures taken == if start + count <= |fields| && "" !in fields[start..start + count]
                     then Some(fields[start..start + count]) else None
  {
    var paths: seq<string> := [];
    for offset := 0 to count
      invariant start + offset <= |fields| || offset == 0
      invariant start + offset <= |fields| ==> paths == fields[start..start + offset] && "" !in paths
    {
      if start + offset >= |fields| {
        return None;
      }
      var value := fields[start + offset];
      assert start + count <= |fields| ==> fields[start..start + count][offset] == value;
      if value == "" {
        return None;
      }
      paths := paths + [value];
    }
    if start > |fields| {
      return None;
    }
    return Some(paths);
  }

  lemma ReadableAt(fields: seq<string>, index: nat)
    requires index < |fields|
    ensures var rest := fields[index..];
            Readable(rest) <==>
              && IsStatus(fields[index]) && index + 1 + Arity(fields[index]) <= |fields|
              && "" !in fields[index + 1..index + 1 + Arity(fields[index])]
  {
    hide IsStatus;
    var rest := fields[index..];
    if IsStatus(fields[index]) && index + 1 + Arity(fields[index]) <= |fields| {
      var n := Arity(fields[index]);
      var paths := fields[index + 1..index + 1 + n];
      assert forall i :: 0 <= i < n ==> paths[i] == rest[i + 1];
      assert forall i :: 1 <= i <= n ==> rest[i] == paths[i - 1];
    }
  }

  /** What has been pushed, and what the fields left still mention. */
  ghost predicate ReadUpTo(fields: seq<string>, index: nat, pushed: seq<string>)
    requires index <= |fields|
  {
    var left := Records(fields[index..]);
    match Records(fields)
    case None => left.None?
    case Some(records) => left.Some? && Mentioned(records) == pushed + Mentioned(left.value)
  }

  lemma ReadOneMore(fields: seq<string>, index: nat, pushed: seq<string>)
    requires index < |fields| && ReadUpTo(fields, index, pushed)
    ensures !Readable(fields[index..]) ==> Records(fields).None?
    ensures Readable(fields[index..]) ==>
              var next := index + 1 + Arity(fields[index]);
              next <= |fields| && ReadUpTo(fields, next, pushed + fields[index + 1..next])
  {
    hide IsStatus;
    hide ReadUpTo;
    if Readable(fields[index..]) {
      ReadNext(fields, index, pushed);
    } else {
      NothingRead(fields, index, pushed);
    }
  }

  lemma NothingRead(fields: seq<string>, index: nat, pushed: seq<string>)
    requires index < |fields| && ReadUpTo(fields, index, pushed) && !Readable(fields[index..])
    ensures Records(fields).None?
  {
    hide Readable;
    assert Records(fields[index..]).None?;
  }

  lemma ReadNext(fields: seq<string>, index: nat, pushed: seq<string>)
    requires index < |fields| && ReadUpTo(fields, index, pushed) && Readable(fields[index..])
    ensures IsStatus(fields[index])
    ensures var next := index + 1 + Arity(fields[index]);
            next <= |fields| && ReadUpTo(fields, next, pushed + fields[index + 1..next])
  {
    hide IsStatus;
    hide ReadUpTo;
    var rest := fields[index..];
    var n := Arity(fields[index]);
    Slices(fields, index, n);
    StepMentions(rest);
    Regroups(fields, index, index + 1 + n, pushed, fields[index + 1..index + 1 + n]);
  }

  lemma Slices(fields: seq<string>, index: nat, n: nat)
    requires index + 1 + n <= |fields|
    ensures fields[index..][1..n + 1] == fields[index + 1..index + 1 + n]
    ensures fields[index..][n + 1..] == fields[index + 1 + n..]
  {
  }

  lemma Regroups(fields: seq<string>, index: nat, next: nat, pushed: seq<string>, added: seq<string>)
    requires index <= next <= |fields| && ReadUpTo(fields, index, pushed)
    requires Records(fields[index..]).None? <==> Records(fields[next..]).None?
    requires Records(fields[index..]).Some? ==>
               Mentioned(Records(fields[index..]).value) == added + Mentioned(Records(fields[next..]).value)
    ensures ReadUpTo(fields, next, pushed + added)
  {
    hide Readable;
    hide IsStatus;
  }

  /** The loop over the fields, which pushes paths as it reads them. */
  method ReadPaths(fields: seq<string>) returns (paths: Option<seq<string>>)
    ensures paths == match Records(fields)
                     case None => None
                     case Some(records) => Some(Mentioned(records))
  {
    var pushed: seq<string> := [];
    var index := 0;
    assert fields[0..] == fields;
    while index < |fields|
      invariant index <= |fields| && ReadUpTo(fields, index, pushed)
    {
      hide ReadUpTo;
      hide Readable;
      hide IsStatus;
      ReadableAt(fields, index);
      ReadOneMore(fields, index, pushed);
      var status := fields[index];
      if !IsStatus(status) {
        return None;
      }
      var value := TakePaths(fields, index + 1, Arity(status));
      if value.None? {
        return None;
      }
      pushed := pushed + value.value;
      index := index + 1 + Arity(status);
    }
    assert fields[index..] == [] && Records([]) == Some([]) && Mentioned([]) == [] && pushed + [] == pushed;
    return Some(pushed);
  }

  lemma StepMentions(fields: seq<string>)
    requires fields != [] && Readable(fields)
    ensures var n := Arity(fields[0]);
            && (Records(fields).None? <==> Records(fields[n + 1..]).None?)
            && (Records(fields).Some? ==>
                  Mentioned(Records(fields).value) == fields[1..n + 1] + Mentioned(Records(fields[n + 1..]).value))
  {
    var n := Arity(fields[0]);
    if Records(fields).Some? {
      var records := Records(fields).value;
      assert records[1..] == Records(fields[n + 1..]).value;
    }
  }

  /** The changed paths of a stream; none for a malformed one. */
  method ChangedPaths(stdout: string, leq: (string, string) -> bool) returns (paths: Option<seq<string>>)
    ensures paths == match Parsed(stdout)
                     case None => None
                     case Some(records) => Some(PathsOf(records, leq))
  {
    var fields := Split(stdout);
    if fields[|fields| - 1] != "" {
      return None;
    }
    var pushed := ReadPaths(fields[..|fields| - 1]);
    if pushed.None? {
      return None;
    }
    return Some(Sort(Once(pushed.value), leq));
  }

  // ----------------------------------------------------------- classification

  datatype Classification = Indeterminate | Disjoint | Overlapping | Conflicting

  datatype Cleanliness = Unstated | IsClean | IsDirty

  /** What the provider's merge result proved. */
  datatype Receipt = Receipt(authenticated: bool, clean: Cleanliness, identity: bool)

  datatype Drift = Drift(classification: Classification, overlap: seq<string>, reviewSurvives: bool, mergeReady: bool)

  predicate ValidPaths(paths: seq<string>) {
    forall i :: 0 <= i < |paths| ==> IsPath(paths[i])
  }

  function InTest(paths: seq<string>): string -> bool {
    (p: string) => p in paths
  }

  function Classify(
    feature: seq<string>, base: seq<string>, receipt: Receipt, authenticated: bool,
    leq: (string, string) -> bool): Drift {
    if !authenticated || !ValidPaths(feature) || !ValidPaths(base) then Drift(Indeterminate, [], false, false)
    else
      var overlap := Filter(feature, InTest(base));
      var classification :=
        if overlap == [] then Disjoint
        else if receipt.authenticated && receipt.clean.IsDirty? then Conflicting
        else Overlapping;
      var capable := receipt.authenticated && receipt.clean.IsClean? && receipt.identity;
      Drift(classification, Sort(overlap, leq), classification == Disjoint, capable && classification == Disjoint)
  }

  /** The review survives exactly on authenticated, well-formed and disjoint evidence. */
  lemma SurvivesIfDisjoint(
    feature: seq<string>, base: seq<string>, receipt: Receipt, authenticated: bool, leq: (string, string) -> bool)
    ensures var drift := Classify(feature, base, receipt, authenticated, leq);
            && (drift.reviewSurvives <==>
                  authenticated && ValidPaths(feature) && ValidPaths(base) && forall p :: p in feature ==> p !in base)
            && (drift.mergeReady ==> drift.reviewSurvives)
  {
    NonePass(feature, InTest(base));
  }

  lemma {:induction false} NonePass<T(!new)>(s: seq<T>, p: T -> bool)
    ensures Filter(s, p) == [] <==> forall x :: x in s ==> !p(x)
  {
    if s != [] {
      NonePass(s[..|s| - 1], p);
      assert s == s[..|s| - 1] + [s[|s| - 1]];
    }
  }

  /** The Git route: both streams are parsed, and the parsed paths classified as authenticated. */
  function ClassifyGit(
    featureStream: string, baseStream: string, receipt: Receipt, leq: (string, string) -> bool): Option<Drift> {
    match (Parsed(featureStream), Parsed(baseStream))
    case (Some(feature), Some(base)) => Some(Classify(PathsOf(feature, leq), PathsOf(base, leq), receipt, true, leq))
    case _ => None
  }

  predicate SharePath(a: seq<Record>, b: seq<Record>) {
    exists i, j, k :: 0 <= i < |a| && 0 <= j < |b| && 0 <= k < |a[i].paths| && a[i].paths[k] in b[j].paths
  }

  lemma ParsedPathsAreValid(records: seq<Record>, leq: (string, string) -> bool)
    requires TotalOrder(leq) && ValidRecords(records)
    ensures ValidPaths(PathsOf(records, leq))
  {
    hide TotalOrder;
    PathsAreMentioned(records, leq);
    var paths := PathsOf(records, leq);
    forall n | 0 <= n < |paths|
      ensures IsPath(paths[n])
    {
      assert paths[n] in paths;
      var i :| 0 <= i < |records| && paths[n] in records[i].paths;
      assert ValidRecord(records[i]);
    }
  }

  lemma SharedMeans(a: seq<Record>, b: seq<Record>, leq: (string, string) -> bool)
    requires TotalOrder(leq)
    ensures SharePath(a, b) <==> exists p :: p in PathsOf(a, leq) && p in PathsOf(b, leq)
  {
    hide TotalOrder;
    hide PathsOf;
    PathsAreMentioned(a, leq);
    PathsAreMentioned(b, leq);
    if p :| p in PathsOf(a, leq) && p in PathsOf(b, leq) {
      var i :| 0 <= i < |a| && p in a[i].paths;
      var j :| 0 <= j < |b| && p in b[j].paths;
      var k :| 0 <= k < |a[i].paths| && a[i].paths[k] == p;
      assert a[i].paths[k] in b[j].paths;
    }
    if SharePath(a, b) {
      var i, j, k :| 0 <= i < |a| && 0 <= j < |b| && 0 <= k < |a[i].paths| && a[i].paths[k] in b[j].paths;
      var p := a[i].paths[k];
      assert p in a[i].paths && p in PathsOf(a, leq) && p in PathsOf(b, leq);
    }
  }

  /** Through Git a review survives exactly when the two lists of records share no path. */
  lemma GitReviewSurvives(feature: seq<Record>, base: seq<Record>, receipt: Receipt, leq: (string, string) -> bool)
    requires TotalOrder(leq) && ValidRecords(feature) && ValidRecords(base)
    ensures var drift := ClassifyGit(Print(feature), Print(base), receipt, leq);
            drift.Some? && (drift.value.reviewSurvives <==> !SharePath(feature, base))
  {
    hide TotalOrder;
    hide PathsOf;
    hide SharePath;
    PrintedIsRead(feature);
    PrintedIsRead(base);
    ParsedPathsAreValid(feature, leq);
    ParsedPathsAreValid(base, leq);
    SharedMeans(feature, base, leq);
    SurvivesIfDisjoint(PathsOf(feature, leq), PathsOf(base, leq), receipt, true, leq);
  }
}

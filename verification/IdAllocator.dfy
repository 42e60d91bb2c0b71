/**
 Backlog ids: printing and parsing of `PM-NNN`, the snapshot of a backlog
 directory, and the creation of records under the next free number.
 */
module IdAllocator {
  import opened Texts
  import opened Wrappers

  const MAX_BACKLOG_ID := 999999
  const MAX_BACKLOG_FILES := 10000
  const MAX_SLUG_CHARS := 60

  // ---------------------------------------------------------------- decimals

  predicate IsDigit(c: char) {
    '0' <= c <= '9'
  }

  predicate AllDigits(s: string) {
    forall i :: 0 <= i < |s| ==> IsDigit(s[i])
  }

  function Digits(n: nat): (s: string)
    ensures s != "" && AllDigits(s)
  {
    if n < 10 then ['0' + n as char] else Digits(n / 10) + ['0' + (n % 10) as char]
  }

  function Value(s: string): nat
    requires AllDigits(s)
  {
    if s == "" then 0 else 10 * Value(s[..|s| - 1]) + (s[|s| - 1] - '0') as nat
  }

  /** `String(n).padStart(3, "0")` */
  function Padded(s: string): string {
    if |s| == 1 then "00" + s else if |s| == 2 then "0" + s else s
  }

  lemma {:induction false} ValueOfDigits(n: nat)
    ensures Value(Digits(n)) == n
  {
    var s := Digits(n);
    if n >= 10 {
      ValueOfDigits(n / 10);
      assert s[..|s| - 1] == Digits(n / 10);
    } else {
      assert s[..0] == "" && Value(s) == 10 * Value(s[..0]) + n;
    }
  }

  lemma {:induction false} LeadingZero(s: string)
    requires AllDigits(s)
    ensures AllDigits("0" + s) && Value("0" + s) == Value(s)
  {
    var t := "0" + s;
    if s != "" {
      LeadingZero(s[..|s| - 1]);
      assert t[..|t| - 1] == "0" + s[..|s| - 1];
    } else {
      assert t[..0] == "" && Value(t) == 10 * Value(t[..0]) + 0;
    }
  }

  lemma PaddingKeepsValue(s: string)
    requires AllDigits(s) && s != ""
    ensures AllDigits(Padded(s)) && Value(Padded(s)) == Value(s) && |Padded(s)| >= 3
  {
    LeadingZero(s);
    LeadingZero("0" + s);
    assert "0" + ("0" + s) == "00" + s;
  }

  lemma LastDigit(s: string)
    requires AllDigits(s) && s != ""
    ensures AllDigits(s[..|s| - 1])
    ensures Value(s) / 10 == Value(s[..|s| - 1]) && s[|s| - 1] == '0' + (Value(s) % 10) as char
  {
    var front, last := Value(s[..|s| - 1]), (s[|s| - 1] - '0') as nat;
    assert Value(s) == 10 * front + last;
    hide Value;
    LastOfTen(front, last);
  }

  lemma LastOfTen(front: nat, last: nat)
    requires last < 10
    ensures (10 * front + last) / 10 == front && (10 * front + last) % 10 == last
  {
  }

  /** Digit texts of one length are equal when their values are. */
  lemma {:induction false} SameLengthSameValue(a: string, b: string)
    requires AllDigits(a) && AllDigits(b) && |a| == |b| && Value(a) == Value(b)
    ensures a == b
  {
    if a != "" {
      LastDigit(a);
      LastDigit(b);
      hide Value;
      SameLengthSameValue(a[..|a| - 1], b[..|b| - 1]);
      assert a == a[..|a| - 1] + [a[|a| - 1]] && b == b[..|b| - 1] + [b[|b| - 1]];
    }
  }

  /** A digit text without leading zero is what its value prints to. */
  lemma {:induction false} DigitsOfValue(s: string)
    requires AllDigits(s) && s != "" && s[0] != '0'
    ensures Digits(Value(s)) == s && Value(s) > 0
  {
    var front, last := s[..|s| - 1], (s[|s| - 1] - '0') as nat;
    if front == "" {
      assert Value(s) == 10 * Value(front) + last && last < 10;
      assert ['0' + last as char] == s;
    } else {
      DigitsOfValue(front);
      assert Value(s) == 10 * Value(front) + last && last < 10;
      assert Value(s) / 10 == Value(front) && Value(s) % 10 == last;
      assert s == front + [s[|s| - 1]];
    }
  }

  lemma {:induction false} DigitsHaveNoLeadingZero(n: nat)
    requires n > 0
    ensures Digits(n)[0] != '0'
  {
    if n >= 10 {
      DigitsHaveNoLeadingZero(n / 10);
    }
  }

  // --------------------------------------------------------------------- ids

  datatype IdNumber = NotAnId | Number(n: nat)

  predicate HasIdShape(s: string) {
    |s| >= 6 && s[0] == 'P' && s[1] == 'M' && s[2] == '-' && AllDigits(s[3..])
  }

  function ParseBacklogId(s: string): IdNumber {
    if HasIdShape(s) && 1 <= Value(s[3..]) <= MAX_BACKLOG_ID then Number(Value(s[3..])) else NotAnId
  }

  function FormatId(n: nat): string {
    ['P', 'M', '-'] + Padded(Digits(n))
  }

  /** `formatNextId`: nothing when the id space is exhausted. */
  function FormatNextId(maxId: nat): Option<string> {
    if maxId >= MAX_BACKLOG_ID then None else Some(FormatId(maxId + 1))
  }

  /** Parsing what was printed gives the number back, for every number of the id space and no other. */
  lemma ParseOfFormat(n: nat)
    ensures ParseBacklogId(FormatId(n)) == if 1 <= n <= MAX_BACKLOG_ID then Number(n) else NotAnId
  {
    ValueOfDigits(n);
    PaddingKeepsValue(Digits(n));
    assert FormatId(n)[3..] == Padded(Digits(n));
  }

  /** Printing what was parsed gives the text back exactly when it has three digits or no leading zero. */
  lemma FormatOfParse(s: string)
    requires ParseBacklogId(s).Number?
    ensures FormatId(ParseBacklogId(s).n) == s <==> |s| == 6 || s[3] != '0'
  {
    var digits, n := s[3..], ParseBacklogId(s).n;
    assert s == ['P', 'M', '-'] + digits;
    ValueOfDigits(n);
    PaddingKeepsValue(Digits(n));
    if digits[0] != '0' {
      DigitsOfValue(digits);
    } else {
      DigitsHaveNoLeadingZero(n);
      var printed := Padded(Digits(n));
      if |s| == 6 {
        if |printed| > 3 {
          PrintedIsNoLonger(n, digits);
        }
        SameLengthSameValue(printed, digits);
      } else if |Digits(n)| >= 3 {
        assert printed[0] != digits[0];
        assert FormatId(n)[3] == printed[0];
      } else {
        assert |FormatId(n)| == 6;
      }
    }
  }

  /** An id with needless zeros is read, and printed differently. */
  lemma NeedlessZeroExample()
    ensures ParseBacklogId("PM-0001") == Number(1) && FormatId(1) == "PM-001"
  {
    var s := "PM-0001";
    assert s[3..] == "0" + ("0" + ("0" + "1"));
    assert "1"[..0] == "" && Value("1") == 10 * Value("1"[..0]) + 1;
    LeadingZero("1");
    LeadingZero("0" + "1");
    LeadingZero("0" + ("0" + "1"));
    assert Digits(1) == "1";
  }

  lemma {:induction false} LengthBounds(n: nat, s: string)
    requires AllDigits(s) && Value(s) == n && s != ""
    ensures |Digits(n)| <= |s|
    decreases |s|
  {
    var front, last := s[..|s| - 1], (s[|s| - 1] - '0') as nat;
    assert n == 10 * Value(front) + last && last < 10;
    if n >= 10 {
      assert front != "";
      assert n / 10 == Value(front);
      LengthBounds(n / 10, front);
    }
  }

  lemma PrintedIsNoLonger(n: nat, digits: string)
    requires AllDigits(digits) && Value(digits) == n && digits != ""
    ensures |Padded(Digits(n))| <= if |digits| < 3 then 3 else |digits|
  {
    LengthBounds(n, digits);
  }

  // --------------------------------------------------------------- snapshots

  /** A file of the backlog directory, with the id in its frontmatter, if any. */
  datatype File = File(name: string, id: Option<string>)

  datatype Snapshot = Snapshot(names: set<string>, ids: set<string>, maxId: nat)

  datatype Error =
    | BadSlug
    | BadId
    | Unreadable
    | SlugCollision
    | Exhausted
    | IdMismatch
    | CommittedInvalid

  predicate IsMarkdown(name: string) {
    |name| >= 3 && name[|name| - 3] == '.' && name[|name| - 2] == 'm' && name[|name| - 1] == 'd'
  }

  /** What one more file does to the snapshot; nothing when its id is malformed or met before. */
  function Seen(snapshot: Snapshot, file: File): Option<Snapshot> {
    if !IsMarkdown(file.name) then Some(snapshot)
    else
      var named := snapshot.(names := snapshot.names + {file.name});
      match file.id
      case None => Some(named)
      case Some(id) =>
        match ParseBacklogId(id)
        case NotAnId => None
        case Number(n) =>
          if id in snapshot.ids then None
          else Some(named.(ids := snapshot.ids + {id}, maxId := if n > snapshot.maxId then n else snapshot.maxId))
  }

  function Scan(files: seq<File>): Option<Snapshot> {
    if files == [] then Some(Snapshot({}, {}, 0))
    else
      match Scan(files[..|files| - 1])
      case None => None
      case Some(snapshot) => Seen(snapshot, files[|files| - 1])
  }

  /** A backlog is accepted when it is not too large and its ids are well-formed and distinct. */
  function SnapshotOf(files: seq<File>): Option<Snapshot> {
    if |files| > MAX_BACKLOG_FILES then None else Scan(files)
  }

  method ReadBacklogSnapshot(files: seq<File>) returns (snapshot: Option<Snapshot>)
    ensures snapshot == SnapshotOf(files)
  {
    if |files| > MAX_BACKLOG_FILES {
      return None;
    }
    var byName: set<string>, ids: set<string>, maxId: nat := {}, {}, 0;
    for index := 0 to |files|
      invariant Scan(files[..index]) == Some(Snapshot(byName, ids, maxId))
    {
      hide IsMarkdown;
      hide ParseBacklogId;
      assert files[..index + 1][..index] == files[..index];
      var file := files[index];
      if !IsMarkdown(file.name) {
        continue;
      }
      byName := byName + {file.name};
      if file.id.Some? {
        var parsed := ParseBacklogId(file.id.value);
        if parsed.NotAnId? || file.id.value in ids {
          ScanStaysLost(files, index + 1);
          return None;
        }
        ids := ids + {file.id.value};
        maxId := if parsed.n > maxId then parsed.n else maxId;
      }
    }
    assert files[..|files|] == files;
    return Some(Snapshot(byName, ids, maxId));
  }

  lemma {:induction false} ScanStaysLost(files: seq<File>, k: nat)
    requires k <= |files| && Scan(files[..k]) == None
    ensures Scan(files) == None
    decreases |files| - k
  {
    if k < |files| {
      assert files[..k + 1][..k] == files[..k];
      ScanStaysLost(files, k + 1);
    } else {
      assert files[..k] == files;
    }
  }

  predicate HasId(file: File) {
    IsMarkdown(file.name) && file.id.Some?
  }

  /** The snapshot knows every id of the directory; its maximum bounds all numbers and is one of them, or zero. */
  lemma {:induction false} SnapshotKnows(files: seq<File>)
    requires Scan(files).Some?
    ensures var snapshot := Scan(files).value;
            && (forall f :: f in files && HasId(f) ==>
                  && f.id.value in snapshot.ids
                  && ParseBacklogId(f.id.value).Number? && 1 <= ParseBacklogId(f.id.value).n <= snapshot.maxId)
            && (forall id :: id in snapshot.ids ==>
                  ParseBacklogId(id).Number? && ParseBacklogId(id).n <= snapshot.maxId)
            && (forall name :: name in snapshot.names <==> IsMarkdown(name) && exists f :: f in files && f.name == name)
            && (snapshot.maxId == 0
                || exists f :: f in files && HasId(f) && ParseBacklogId(f.id.value) == Number(snapshot.maxId))
            && snapshot.maxId <= MAX_BACKLOG_ID
  {
    hide IsMarkdown;
    if files != [] {
      var front, last := files[..|files| - 1], files[|files| - 1];
      assert files == front + [last];
      SnapshotKnows(front);
      var before, after := Scan(front).value, Scan(files).value;
      if after.maxId != before.maxId {
        assert last in files && ParseBacklogId(last.id.value) == Number(after.maxId);
      } else if before.maxId != 0 {
        var f :| f in front && HasId(f) && ParseBacklogId(f.id.value) == Number(before.maxId);
        assert f in files;
      }
      NamesKnown(front, last, before, after);
    }
  }

  lemma NamesKnown(front: seq<File>, last: File, before: Snapshot, after: Snapshot)
    requires Seen(before, last) == Some(after)
    requires forall name :: name in before.names <==> IsMarkdown(name) && exists f :: f in front && f.name == name
    ensures forall name :: name in after.names <==>
            IsMarkdown(name) && exists f :: f in front + [last] && f.name == name
  {
    hide IsMarkdown;
    hide ParseBacklogId;
    assert last in front + [last];
    forall name
      ensures name in after.names <==> IsMarkdown(name) && exists f :: f in front + [last] && f.name == name
    {
      if f :| f in front && f.name == name {
        assert f in front + [last];
      }
      if f :| f in front + [last] && f.name == name {
        assert f in front || f == last;
      }
    }
  }

  /** The next id is not in the backlog: the duplicate check on it can never fire. */
  lemma NextIsFresh(files: seq<File>)
    requires Scan(files).Some? && Scan(files).value.maxId < MAX_BACKLOG_ID
    ensures FormatId(Scan(files).value.maxId + 1) !in Scan(files).value.ids
  {
    hide ParseBacklogId;
    hide FormatId;
    SnapshotKnows(files);
    ParseOfFormat(Scan(files).value.maxId + 1);
  }

  // ---------------------------------------------------------------- creation

  predicate IsSlug(s: string) {
    |s| <= MAX_SLUG_CHARS && IsKebab(s)
  }

  function FileName(slug: string): string {
    slug + ['.', 'm', 'd']
  }

  /** A create request; `requestedId` is given only to insist on the next id. */
  datatype Request = Request(slug: string, requestedId: Option<string>)

  /** The id a request is given, or why it is refused before anything is written. */
  function Allocated(files: seq<File>, request: Request): Result<string, Error> {
    if !IsSlug(request.slug) then Failure(BadSlug)
    else if request.requestedId.Some? && ParseBacklogId(request.requestedId.value).NotAnId? then Failure(BadId)
    else
      match SnapshotOf(files)
      case None => Failure(Unreadable)
      case Some(snapshot) =>
        if FileName(request.slug) in snapshot.names then Failure(SlugCollision)
        else
          match FormatNextId(snapshot.maxId)
          case None => Failure(Exhausted)
          case Some(id) =>
            if request.requestedId.Some? && request.requestedId.value != id then Failure(IdMismatch) else Success(id)
  }

  /**
   A create with what the template and the validation make of it: the id that
   the rendered document carries, and whether the document is valid.
   */
  datatype Attempt = Attempt(request: Request, rendered: string -> Option<string>, valid: bool)

  /** How a create ends and what it leaves in the directory; an invalid record is published before it is found out. */
  function Tried(files: seq<File>, attempt: Attempt): (Result<string, Error>, seq<File>) {
    match Allocated(files, attempt.request)
    case Failure(error) => (Failure(error), files)
    case Success(id) =>
      var carried := attempt.rendered(id);
      (if attempt.valid && carried == Some(id) then Success(id) else Failure(CommittedInvalid),
       files + [File(FileName(attempt.request.slug), carried)])
  }

  /** The backlog directory under its lock. */
  class Backlog {
    var files: seq<File>

    constructor (files: seq<File>)
      ensures this.files == files
    {
      this.files := files;
    }

    /**
     Creates a record. `rendered` is the id that the rendered document carries and
     `valid` the outcome of its validation; a published record that fails either
     stays, and the error says so.
     */
    method CreateRecord(request: Request, rendered: string -> Option<string>, valid: bool)
      returns (result: Result<string, Error>)
      modifies this
      ensures match Allocated(old(files), request)
              case Failure(error) => result == Failure(error) && files == old(files)
              case Success(id) =>
                && files == old(files) + [File(FileName(request.slug), rendered(id))]
                && result == if valid && rendered(id) == Some(id) then Success(id) else Failure(CommittedInvalid)
      ensures (result, files) == Tried(old(files), Attempt(request, rendered, valid))
    {
      hide IsSlug;
      hide FormatId;
      hide ParseBacklogId;
      if !IsSlug(request.slug) {
        return Failure(BadSlug);
      }
      if request.requestedId.Some? && ParseBacklogId(request.requestedId.value).NotAnId? {
        return Failure(BadId);
      }
      var snapshot := ReadBacklogSnapshot(files);
      if snapshot.None? {
        return Failure(Unreadable);
      }
      if FileName(request.slug) in snapshot.value.names {
        return Failure(SlugCollision);
      }
      var nextId := FormatNextId(snapshot.value.maxId);
      if nextId.None? {
        return Failure(Exhausted);
      }
      if request.requestedId.Some? && request.requestedId.value != nextId.value {
        return Failure(IdMismatch);
      }
      var id := if request.requestedId.Some? then request.requestedId.value else nextId.value;
      NextIsFresh(files);
      if id in snapshot.value.ids {
        assert false;
      }
      files := files + [File(FileName(request.slug), rendered(id))];
      if valid && rendered(id) == Some(id) {
        return Success(id);
      }
      return Failure(CommittedInvalid);
    }
  }

  // -------------------------------------------------------------------- runs

  /** The directory after a run of creates, if all of them succeed. */
  function After(files: seq<File>, requests: seq<Request>): Option<seq<File>> {
    if requests == [] then Some(files)
    else
      var request := requests[|requests| - 1];
      match After(files, requests[..|requests| - 1])
      case None => None
      case Some(front) =>
        match Allocated(front, request)
        case Failure(_) => None
        case Success(id) => Some(front + [File(FileName(request.slug), Some(id))])
  }

  lemma MarkdownName(slug: string)
    ensures IsMarkdown(FileName(slug))
  {
  }

  /** One successful create takes the next number, keeps the backlog readable and raises the maximum by one. */
  lemma CreateRaisesMax(files: seq<File>, request: Request)
    requires Scan(files).Some? && Allocated(files, request).Success?
    ensures var id := Allocated(files, request).value;
            var after := files + [File(FileName(request.slug), Some(id))];
            && id == FormatId(Scan(files).value.maxId + 1) && ParseBacklogId(id) == Number(Scan(files).value.maxId + 1)
            && Scan(after).Some? && Scan(after).value.maxId == Scan(files).value.maxId + 1
  {
    hide IsMarkdown;
    hide ParseBacklogId;
    hide FormatId;
    hide IsSlug;
    var id := Allocated(files, request).value;
    var after := files + [File(FileName(request.slug), Some(id))];
    assert after[..|after| - 1] == files;
    MarkdownName(request.slug);
    ParseOfFormat(Scan(files).value.maxId + 1);
    NextIsFresh(files);
  }

  /** The file at `i` is the one a request for this slug adds under number `n`. */
  predicate IsRecord(after: seq<File>, i: nat, slug: string, n: nat) {
    i < |after| && after[i] == File(FileName(slug), Some(FormatId(n)))
  }

  /**
   Over any run of successful creates from an accepted backlog, the k-th new id
   carries the old maximum plus k, the files that were there stay as they were,
   and each new file is the only thing its create adds.
   */
  lemma {:induction false} RunsAllocateInOrder(files: seq<File>, requests: seq<Request>)
    requires Scan(files).Some? && After(files, requests).Some?
    ensures var after := After(files, requests).value;
            && |after| == |files| + |requests| && after[..|files|] == files
            && Scan(after).Some? && Scan(after).value.maxId == Scan(files).value.maxId + |requests|
            && forall k :: 0 <= k < |requests| ==>
                 IsRecord(after, |files| + k, requests[k].slug, Scan(files).value.maxId + k + 1)
  {
    hide FormatId;
    hide ParseBacklogId;
    hide FileName;
    hide Allocated;
    hide Scan;
    if requests == [] {
      assert files[..|files|] == files;
    } else {
      var front := requests[..|requests| - 1];
      var before := After(files, front).value;
      var after := After(files, requests).value;
      RunsAllocateInOrder(files, front);
      CreateRaisesMax(before, requests[|requests| - 1]);
      assert after[..|files|] == before[..|files|];
      forall k | 0 <= k < |requests|
        ensures IsRecord(after, |files| + k, requests[k].slug, Scan(files).value.maxId + k + 1)
      {
        if k < |front| {
          assert IsRecord(before, |files| + k, front[k].slug, Scan(files).value.maxId + k + 1);
        }
      }
    }
  }

  /** Every number that stands before the k-th new file is smaller than its number: ids never repeat. */
  lemma IdsNeverRepeat(files: seq<File>, requests: seq<Request>, k: nat, i: nat)
    requires Scan(files).Some? && After(files, requests).Some? && k < |requests| && i < |files| + k
    ensures var after := After(files, requests).value;
            && |files| + k < |after| && after[|files| + k].id.Some?
            && (HasId(after[i]) ==>
                  && ParseBacklogId(after[i].id.value).Number?
                  && ParseBacklogId(after[|files| + k].id.value).Number?
                  && ParseBacklogId(after[i].id.value).n < ParseBacklogId(after[|files| + k].id.value).n)
  {
    hide IsMarkdown;
    hide After;
    hide FormatId;
    hide ParseBacklogId;
    hide FileName;
    hide Scan;
    var max := Scan(files).value.maxId;
    var after := After(files, requests).value;
    RunsAllocateInOrder(files, requests);
    SnapshotKnows(after);
    assert IsRecord(after, |files| + k, requests[k].slug, max + k + 1);
    ParseOfFormat(max + k + 1);
    if i < |files| {
      SnapshotKnows(files);
      assert after[i] == after[..|files|][i] == files[i];
      assert files[i] in files;
    } else {
      assert IsRecord(after, |files| + (i - |files|), requests[i - |files|].slug, max + (i - |files|) + 1);
      ParseOfFormat(max + (i - |files|) + 1);
    }
  }

  // -------------------------------------------------------------- mixed runs

  /** The directory after any attempts: successes, refusals and invalid records in any order. */
  function Directory(files: seq<File>, attempts: seq<Attempt>): seq<File> {
    if attempts == [] then files
    else Tried(Directory(files, attempts[..|attempts| - 1]), attempts[|attempts| - 1]).1
  }

  /** How the `k`-th attempt ends. */
  function Outcome(files: seq<File>, attempts: seq<Attempt>, k: nat): Result<string, Error>
    requires k < |attempts|
  {
    Tried(Directory(files, attempts[..k]), attempts[k]).0
  }

  /** Attempts only add files. */
  lemma {:induction false} DirectoryGrows(files: seq<File>, attempts: seq<Attempt>, k: nat)
    requires k <= |attempts|
    ensures Directory(files, attempts[..k]) <= Directory(files, attempts)
    decreases |attempts|
  {
    if k < |attempts| {
      var front := attempts[..|attempts| - 1];
      assert front[..k] == attempts[..k];
      hide Allocated;
      DirectoryGrows(files, front, k);
    } else {
      assert attempts[..k] == attempts;
    }
  }

  /** A success takes a number above those of all files in the directory, and its file is there afterwards. */
  lemma SuccessIsAbove(files: seq<File>, attempt: Attempt)
    requires Tried(files, attempt).0.Success?
    ensures var id, after := Tried(files, attempt).0.value, Tried(files, attempt).1;
            && ParseBacklogId(id).Number?
            && (forall f :: f in files && HasId(f) ==>
                  ParseBacklogId(f.id.value).Number? && ParseBacklogId(f.id.value).n < ParseBacklogId(id).n)
            && |after| == |files| + 1 && HasId(after[|files|]) && after[|files|].id == Some(id)
  {
    hide IsMarkdown;
    hide ParseBacklogId;
    hide FormatId;
    hide IsSlug;
    hide FileName;
    hide Scan;
    SnapshotKnows(files);
    ParseOfFormat(Scan(files).value.maxId + 1);
    MarkdownName(attempt.request.slug);
  }

  /**
   Over any attempts on any directory, whatever was refused or published
   invalid in between: each success takes a number above those of all files
   that stand there, so a later success has a larger number than an earlier one.
   */
  lemma SuccessesIncrease(files: seq<File>, attempts: seq<Attempt>, j: nat, k: nat)
    requires j < k < |attempts| && Outcome(files, attempts, j).Success? && Outcome(files, attempts, k).Success?
    ensures var earlier, later := ParseBacklogId(Outcome(files, attempts, j).value),
                                  ParseBacklogId(Outcome(files, attempts, k).value);
            && earlier.Number? && later.Number? && earlier.n < later.n
            && forall f :: f in Directory(files, attempts[..k]) && HasId(f) ==>
                 ParseBacklogId(f.id.value).Number? && ParseBacklogId(f.id.value).n < later.n
  {
    hide IsMarkdown;
    hide ParseBacklogId;
    hide Tried;
    var before, upTo := attempts[..j + 1], attempts[..k];
    assert before[..j] == attempts[..j] && upTo[..j + 1] == before;
    var at := Directory(files, attempts[..j]);
    SuccessIsAbove(at, attempts[j]);
    SuccessIsAbove(Directory(files, upTo), attempts[k]);
    DirectoryGrows(files, upTo, j + 1);
    var f := Directory(files, before)[|at|];
    assert Directory(files, upTo)[|at|] == f;
    assert f in Directory(files, upTo) && HasId(f);
  }
}

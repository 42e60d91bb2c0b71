/**
 Rewriting of run paths when a finished session moves from its active directory
 to the archive: `rebaseContractPaths` over JSON values, and exactly when a
 second rewriting changes nothing.

 A text is the list of its pieces between slashes, so an absolute path starts
 with an empty piece and "starts with `dir/`" is a prefix test on pieces.
 */
module PathRebase {

  /** A piece of a path: the texts the code treats specially, and any other text. */
  datatype Piece =
    | Empty | Here | Up
    | Pm | DevSessions | Completed
    | SessionJson | LockFolder | OwnerJson | CompletionJson
    | Named(name: string)

  function Classify(s: string): Piece {
    if s == "" then Empty
    else if s == "." then Here
    else if s == ".." then Up
    else if s == ".pm" then Pm
    else if s == "dev-sessions" then DevSessions
    else if s == "completed" then Completed
    else if s == "session.json" then SessionJson
    else if s == "session.json.lock" then LockFolder
    else if s == "owner.json" then OwnerJson
    else if s == "completion.json" then CompletionJson
    else Named(s)
  }

  type Text = seq<Piece>

  datatype Json =
    | Null
    | Bool(b: bool)
    | Number(n: real)
    | String(text: Text)
    | Array(items: seq<Json>)
    | Object(fields: seq<(string, Json)>)

  const RUN_PATH_FIELDS: set<string> :=
    {"artifact", "events_file", "log_file", "output_path", "result_file", "session_path", "stderr_file"}

  /** Where a run lives: below `root/.pm/dev-sessions`, by slug, and archived by slug and run. */
  datatype Run = Run(root: Text, slug: Piece, runId: Piece) {
    function Sessions(): Text { root + [Pm, DevSessions] }
    function Active(): Text { Sessions() + [slug] }
    function Archive(): Text { Sessions() + [Completed, slug, runId] }
    function ActiveRelative(): Text { [Pm, DevSessions, slug] }
    function ArchiveRelative(): Text { [Pm, DevSessions, Completed, slug, runId] }

    /** The names are plain pieces, and the slug is not the archive's own directory. */
    predicate Plain() {
      && (forall p :: p in root ==> PlainPiece(p))
      && PlainPiece(slug) && PlainPiece(runId) && slug != Completed
    }
  }

  predicate PlainPiece(p: Piece) {
    NotDots(p) && Whole(p)
  }

  predicate NotDots(p: Piece) {
    p != Empty && p != Here && p != Up
  }

  /** A piece without a backslash in it, under its own classification. */
  predicate Whole(p: Piece) {
    p.Named? ==> '\\' !in p.name && Classify(p.name) == p
  }

  // ---------------------------------------------------------------- path.*

  /** Normalisation of an absolute path: empty and `.` pieces vanish, `..` drops the piece before it. */
  function Resolve(base: Text, rest: Text): Text
    decreases |rest|
  {
    if rest == [] then base
    else if rest[0] == Empty || rest[0] == Here then Resolve(base, rest[1..])
    else if rest[0] == Up then Resolve(if base == [] then [] else base[..|base| - 1], rest[1..])
    else Resolve(base + [rest[0]], rest[1..])
  }

  function Common(a: Text, b: Text): (c: nat)
    ensures c <= |a| && c <= |b| && a[..c] == b[..c]
    ensures c < |a| && c < |b| ==> a[c] != b[c]
  {
    if a == [] || b == [] || a[0] != b[0] then 0
    else
      var c := 1 + Common(a[1..], b[1..]);
      assert a[..c] == [a[0]] + a[1..][..c - 1];
      assert b[..c] == [b[0]] + b[1..][..c - 1];
      c
  }

  function Ups(n: nat): (r: Text)
    ensures |r| == n && forall i :: 0 <= i < n ==> r[i] == Up
  {
    seq(n, _ => Up)
  }

  /** `path.relative` of two normalised absolute paths. */
  function Relative(from: Text, to: Text): Text {
    var c := Common(from, to);
    Ups(|from| - c) + to[c..]
  }

  function Absolute(pieces: Text): Text {
    if pieces == [] then [Empty, Empty] else [Empty] + pieces
  }

  /** `path.join(archive, path.relative(active, value))` for a value below the active directory. */
  function MoveAbsolute(run: Run, tail: Text): Text {
    Absolute(Resolve([], run.Archive() + Relative(run.Active(), Resolve(run.Active(), tail))))
  }

  function CutAtBackslash(p: string): (r: seq<string>)
    ensures r != [] && forall q :: q in r ==> '\\' !in q
    decreases |p|
  {
    if p == "" then [""]
    else
      var rest := CutAtBackslash(p[1..]);
      if p[0] == '\\' then [""] + rest else [[p[0]] + rest[0]] + rest[1..]
  }

  function CutPiece(p: Piece): (r: Text)
    ensures r != [] && (!p.Named? ==> r == [p])
    ensures forall q :: q in r ==> Whole(q)
  {
    if p.Named? then
      var cut := CutAtBackslash(p.name);
      seq(|cut|, i requires 0 <= i < |cut| => Classify(cut[i]))
    else [p]
  }

  /** The text with every backslash turned into a slash. */
  function Slashed(t: Text): (r: Text)
    ensures forall q :: q in r ==> Whole(q)
  {
    if t == [] then [] else CutPiece(t[0]) + Slashed(t[1..])
  }

  /** What happens to one string below a run path field. */
  function MoveText(run: Run, t: Text): Text {
    if [Empty] + run.Active() <= t then MoveAbsolute(run, t[1 + |run.Active()|..])
    else if run.ActiveRelative() <= Slashed(t) then run.ArchiveRelative() + Slashed(t)[3..]
    else t
  }

  function Rebase(run: Run, value: Json, key: string): Json
    decreases value
  {
    match value
    case Array(items) => Array(seq(|items|, i requires 0 <= i < |items| => Rebase(run, items[i], key)))
    case Object(fields) =>
      Object(seq(|fields|, i requires 0 <= i < |fields| =>
        (fields[i].0, RebaseField(run, fields[i]))))
    case String(t) => if key in RUN_PATH_FIELDS then String(MoveText(run, t)) else value
    case _ => value
  }

  function RebaseField(run: Run, field: (string, Json)): Json
    decreases field, 1
  {
    Rebase(run, field.1, field.0)
  }

  // ------------------------------------------------- rewriting a second time

  /**
   The value climbs at least three directories above the run directory and then
   descends along the run directory's own last names, two levels early.
   */
  ghost predicate ClimbsBack(run: Run, t: Text) {
    && [Empty] + run.Active() <= t
    && var r := Resolve(run.Active(), t[1 + |run.Active()|..]);
    && var c := Common(run.Active(), r);
    && c + 3 <= |run.Active()|
    && run.Active()[c + 2..] <= r[c..]
  }

  lemma {:induction false} ResolveOfPlain(base: Text, rest: Text)
    requires forall p :: p in rest ==> NotDots(p)
    ensures Resolve(base, rest) == base + rest
    decreases |rest|
  {
    if rest == [] {
      assert base + rest == base;
    } else {
      assert rest[0] in rest;
      ResolveOfPlain(base + [rest[0]], rest[1..]);
      assert base + rest == base + [rest[0]] + rest[1..];
    }
  }

  lemma {:induction false} ResolveIsPlain(base: Text, rest: Text)
    requires forall p :: p in base ==> NotDots(p)
    ensures forall p :: p in Resolve(base, rest) ==> NotDots(p)
    decreases |rest|
  {
    if rest != [] {
      if rest[0] == Empty || rest[0] == Here {
        ResolveIsPlain(base, rest[1..]);
      } else if rest[0] == Up {
        ResolveIsPlain(if base == [] then [] else base[..|base| - 1], rest[1..]);
      } else {
        ResolveIsPlain(base + [rest[0]], rest[1..]);
      }
    }
  }

  lemma {:induction false} ResolveClimbs(base: Text, k: nat, rest: Text)
    requires k <= |base|
    ensures Resolve(base, Ups(k) + rest) == Resolve(base[..|base| - k], rest)
    decreases k
  {
    var ups := Ups(k);
    if k == 0 {
      assert ups + rest == rest && base[..|base|] == base;
    } else {
      assert (ups + rest)[0] == Up && (ups + rest)[1..] == Ups(k - 1) + rest;
      ResolveClimbs(base[..|base| - 1], k - 1, rest);
      assert base[..|base| - 1][..|base| - k] == base[..|base| - k];
    }
  }

  lemma {:induction false} ResolveInTwo(base: Text, a: Text, b: Text)
    requires forall p :: p in a ==> NotDots(p)
    ensures Resolve(base, a + b) == Resolve(base + a, b)
    decreases |a|
  {
    if a == [] {
      assert a + b == b && base + a == base;
    } else {
      assert a[0] in a && (a + b)[1..] == a[1..] + b;
      ResolveInTwo(base + [a[0]], a[1..], b);
      assert base + [a[0]] + a[1..] == base + a;
    }
  }

  /** From a plain path up some levels and down again. */
  lemma UpAndDown(base: Text, k: nat, rest: Text)
    requires k <= |base| && (forall p :: p in base ==> NotDots(p)) && forall p :: p in rest ==> NotDots(p)
    ensures Resolve([], base + (Ups(k) + rest)) == base[..|base| - k] + rest
  {
    hide Resolve;
    hide NotDots;
    ResolveInTwo([], base, Ups(k) + rest);
    assert [] + base == base;
    ResolveClimbs(base, k, rest);
    ResolveOfPlain(base[..|base| - k], rest);
  }

  /** The moved path: the archive's first pieces, then what the value shares no longer with the active directory. */
  lemma MovedPieces(run: Run, tail: Text)
    requires run.Plain()
    ensures var r := Resolve(run.Active(), tail);
            var c := Common(run.Active(), r);
            && (forall p :: p in r ==> NotDots(p))
            && MoveAbsolute(run, tail) == Absolute(run.Archive()[..c + 2] + r[c..])
  {
    PlainPieces(run);
    var r := Resolve(run.Active(), tail);
    ResolveIsPlain(run.Active(), tail);
    hide Resolve;
    hide Common;
    hide Relative;
    hide NotDots;
    hide PlainPiece;
    hide Absolute;
    Rejoined(run.Archive(), run.Active(), r);
  }

  /** Joining the relative path to the archive keeps the archive's pieces up to two below the common ones. */
  lemma Rejoined(archive: Text, active: Text, r: Text)
    requires |archive| == |active| + 2
    requires (forall p :: p in archive ==> NotDots(p)) && forall p :: p in r ==> NotDots(p)
    ensures var c := Common(active, r);
            Resolve([], archive + Relative(active, r)) == archive[..c + 2] + r[c..]
  {
    hide Resolve;
    hide Common;
    hide NotDots;
    hide Ups;
    var c := Common(active, r);
    assert forall p :: p in r[c..] ==> p in r;
    UpAndDown(archive, |active| - c, r[c..]);
  }

  lemma {:induction false} SlashedIsSettled(t: Text)
    requires forall p :: p in t ==> Whole(p)
    ensures Slashed(t) == t
  {
    if t != [] {
      assert t[0] in t;
      assert [t[0]] + t[1..] == t;
      if t[0].Named? {
        CutNothing(t[0].name);
      }
      SlashedIsSettled(t[1..]);
    }
  }

  lemma {:induction false} CutNothing(p: string)
    requires '\\' !in p
    ensures CutAtBackslash(p) == [p]
  {
    if p != "" {
      CutNothing(p[1..]);
      assert [p[0]] + p[1..] == p;
    }
  }

  /** Whether a moved path lies below the active directory again. */
  lemma MovedBackUnder(run: Run, r: Text, c: nat)
    requires run.Plain() && c == Common(run.Active(), r)
    ensures run.Active() <= run.Archive()[..c + 2] + r[c..] <==>
            c + 3 <= |run.Active()| && run.Active()[c + 2..] <= r[c..]
  {
    var active, s := run.Active(), |run.Sessions()|;
    var o := run.Archive()[..c + 2] + r[c..];
    if c + 2 > s {
      assert o[s] == Completed && active[s] == run.slug;
    } else {
      assert o[..c + 2] == active[..c + 2];
      PrefixFrom(active, o, c + 2);
      assert o[c + 2..] == r[c..];
    }
  }

  lemma MoveAbsoluteTwice(run: Run, t: Text)
    requires run.Plain() && [Empty] + run.Active() <= t
    ensures MoveText(run, MoveText(run, t)) == MoveText(run, t) <==> !ClimbsBack(run, t)
  {
    hide Resolve;
    hide Common;
    hide MoveAbsolute;
    hide Slashed;
    hide Whole;
    var active := run.Active();
    var r := Resolve(active, t[1 + |active|..]);
    var c := Common(active, r);
    var o := run.Archive()[..c + 2] + r[c..];
    MovedPieces(run, t[1 + |active|..]);
    MovedBackUnder(run, r, c);
    assert MoveText(run, t) == Absolute(o);
    if active <= o {
      PlainPieces(run);
      assert forall p :: p in o ==> p in run.Archive() || p in r;
      MovedUnderActive(run, o);
    } else {
      AbsoluteStays(run, o);
    }
  }

  /** An absolute text is moved only by the absolute rule. */
  lemma AbsoluteIsNotRelative(run: Run, pieces: Text)
    ensures !(run.ActiveRelative() <= Slashed(Absolute(pieces)))
  {
    var t := Absolute(pieces);
    assert Slashed(t)[0] == Empty;
    assert run.ActiveRelative()[0] == Pm;
  }

  lemma AbsoluteStays(run: Run, o: Text)
    requires !(run.Active() <= o)
    ensures MoveText(run, Absolute(o)) == Absolute(o)
  {
    AbsoluteIsNotRelative(run, o);
    BelowAbsolute(run.Active(), o);
  }

  lemma BelowAbsolute(a: Text, o: Text)
    requires |a| > 1
    ensures [Empty] + a <= Absolute(o) <==> a <= o
  {
    if o != [] {
      PrefixFrom([Empty] + a, Absolute(o), 1);
      assert ([Empty] + a)[1..] == a && Absolute(o)[1..] == o;
    }
  }

  lemma PlainPieces(run: Run)
    requires run.Plain()
    ensures forall p :: p in run.Archive() ==> NotDots(p)
    ensures forall p :: p in run.Active() ==> NotDots(p)
  {
  }

  /** One string: a second rewriting changes nothing exactly when the value does not climb back. */
  lemma MoveTextTwice(run: Run, t: Text)
    requires run.Plain()
    ensures MoveText(run, MoveText(run, t)) == MoveText(run, t) <==> !ClimbsBack(run, t)
  {
    if [Empty] + run.Active() <= t {
      MoveAbsoluteTwice(run, t);
    } else if run.ActiveRelative() <= Slashed(t) {
      var rest := Slashed(t)[3..];
      assert forall p :: p in rest ==> p in Slashed(t);
      assert MoveText(run, t) == run.ArchiveRelative() + rest;
      ArchiveRelativeStays(run, rest);
    }
  }

  lemma ArchiveRelativeStays(run: Run, rest: Text)
    requires run.Plain() && forall p :: p in rest ==> Whole(p)
    ensures MoveText(run, run.ArchiveRelative() + rest) == run.ArchiveRelative() + rest
  {
    var t := run.ArchiveRelative() + rest;
    SlashedIsSettled(t);
    assert t[0] == Pm && ([Empty] + run.Active())[0] == Empty;
    assert t[2] == Completed && run.ActiveRelative()[2] == run.slug;
  }

  lemma PrefixFrom(a: Text, b: Text, k: nat)
    requires k <= |a| && k <= |b| && a[..k] == b[..k]
    ensures a <= b <==> a[k..] <= b[k..]
  {
    if a <= b {
      assert b[k..][..|a| - k] == b[k..|a|] == a[k..];
    }
    if a[k..] <= b[k..] {
      assert a == a[..k] + a[k..];
      assert b == b[..k] + b[k..];
    }
  }

  /** A moved path that still lies below the active directory is moved again, to a different place. */
  lemma MovedUnderActive(run: Run, o: Text)
    requires run.Plain() && run.Active() <= o && forall p :: p in o[|run.Active()|..] ==> NotDots(p)
    ensures MoveText(run, Absolute(o)) != Absolute(o)
  {
    var active, tail := run.Active(), o[|run.Active()|..];
    assert Absolute(o)[1 + |active|..] == tail;
    ResolveOfPlain(active, tail);
    assert active + tail == o;
    MovedPieces(run, tail);
    assert Common(active, o) == |active|;
    var moved := run.Archive()[..|active| + 2] + o[|active|..];
    assert moved[|run.Sessions()|] == Completed && o[|run.Sessions()|] == run.slug;
    assert Absolute(moved)[1 + |run.Sessions()|] == Completed;
  }

  /** A path that contains no `..` never climbs back. */
  lemma WithoutDotsSettles(run: Run, t: Text)
    requires run.Plain() && Up !in t
    ensures !ClimbsBack(run, t)
  {
    if [Empty] + run.Active() <= t {
      var tail := t[1 + |run.Active()|..];
      assert forall p :: p in tail ==> p in t;
      ResolveKeepsBase(run.Active(), tail);
    }
  }

  lemma {:induction false} ResolveKeepsBase(base: Text, rest: Text)
    requires Up !in rest
    ensures base <= Resolve(base, rest) && Common(base, Resolve(base, rest)) == |base|
    decreases |rest|
  {
    if rest != [] {
      assert rest[0] in rest && forall p :: p in rest[1..] ==> p in rest;
      if rest[0] == Empty || rest[0] == Here {
        ResolveKeepsBase(base, rest[1..]);
      } else {
        ResolveKeepsBase(base + [rest[0]], rest[1..]);
      }
    }
    CommonOfPrefix(base, Resolve(base, rest));
  }

  lemma CommonOfPrefix(a: Text, b: Text)
    requires a <= b
    ensures Common(a, b) == |a|
  {
    assert forall c :: 0 <= c < |a| ==> a[c] == b[c];
  }

  /** The values a second rewriting leaves alone: no string below a run path field climbs back. */
  ghost predicate Settles(run: Run, value: Json, key: string)
    decreases value
  {
    match value
    case Array(items) => forall i :: 0 <= i < |items| ==> Settles(run, items[i], key)
    case Object(fields) => forall i :: 0 <= i < |fields| ==> SettlesField(run, fields[i])
    case String(t) => key in RUN_PATH_FIELDS ==> !ClimbsBack(run, t)
    case _ => true
  }

  ghost predicate SettlesField(run: Run, field: (string, Json))
    decreases field, 1
  {
    Settles(run, field.1, field.0)
  }

  /** The value after `n` rewritings. */
  function RebaseTimes(run: Run, value: Json, n: nat): Json {
    if n == 0 then value else Rebase(run, RebaseTimes(run, value, n - 1), "")
  }

  /** Rewriting a JSON value twice is rewriting it once, exactly for the values that settle. */
  lemma {:induction false} RebaseTwice(run: Run, value: Json, key: string)
    requires run.Plain()
    ensures Rebase(run, Rebase(run, value, key), key) == Rebase(run, value, key) <==> Settles(run, value, key)
    decreases value
  {
    var once := Rebase(run, value, key);
    var twice := Rebase(run, once, key);
    match value
    case Array(items) =>
      forall i | 0 <= i < |items|
        ensures twice.items[i] == once.items[i] <==> Settles(run, items[i], key)
      {
        RebaseTwice(run, items[i], key);
      }
      assert twice == once <==> forall i :: 0 <= i < |items| ==> twice.items[i] == once.items[i];
    case Object(fields) =>
      forall i | 0 <= i < |fields|
        ensures twice.fields[i] == once.fields[i] <==> SettlesField(run, fields[i])
      {
        assert RebaseField(run, fields[i]) == Rebase(run, fields[i].1, fields[i].0);
        assert RebaseField(run, once.fields[i]) == Rebase(run, once.fields[i].1, fields[i].0);
        RebaseTwice(run, fields[i].1, fields[i].0);
      }
      assert twice == once <==> forall i :: 0 <= i < |fields| ==> twice.fields[i] == once.fields[i];
    case String(t) =>
      MoveTextTwice(run, t);
    case _ =>
  }

  lemma {:induction false} SettledMovesOnce(run: Run, value: Json, n: nat)
    requires run.Plain() && Settles(run, value, "") && n >= 1
    ensures RebaseTimes(run, value, n) == Rebase(run, value, "")
  {
    if n == 1 {
      assert RebaseTimes(run, value, 0) == value;
    } else {
      SettledMovesOnce(run, value, n - 1);
      RebaseTwice(run, value, "");
    }
  }

  /** Any number of rewritings is one rewriting, exactly for the values that settle. */
  lemma AnyTimesIsOnce(run: Run, value: Json)
    requires run.Plain()
    ensures (forall n :: n >= 1 ==> RebaseTimes(run, value, n) == Rebase(run, value, "")) <==> Settles(run, value, "")
  {
    if Settles(run, value, "") {
      forall n | n >= 1
        ensures RebaseTimes(run, value, n) == Rebase(run, value, "")
      {
        SettledMovesOnce(run, value, n);
      }
    } else {
      RebaseTwice(run, value, "");
      assert RebaseTimes(run, value, 2) == Rebase(run, RebaseTimes(run, value, 1), "");
      assert RebaseTimes(run, value, 1) == Rebase(run, RebaseTimes(run, value, 0), "");
    }
  }

  lemma LettersAreWhole()
    ensures Whole(Named("a")) && Whole(Named("s")) && Whole(Named("r"))
  {
  }

  /** A path field that climbs out of the repository and down again is moved by a second rewriting too. */
  lemma ClimbingExample()
    ensures var run := Run([Named("a")], Named("s"), Named("r"));
            var t := [Empty] + run.Active() + Ups(4) + [Named("a"), Named("s")];
            run.Plain() && ClimbsBack(run, t)
  {
    var run := Run([Named("a")], Named("s"), Named("r"));
    var down := [Named("a"), Named("s")];
    LettersAreWhole();
    hide Whole;
    hide Resolve;
    assert run.Plain();
    hide PlainPiece;
    var t := [Empty] + run.Active() + Ups(4) + down;
    assert t[1 + |run.Active()|..] == Ups(4) + down;
    ResolveClimbs(run.Active(), 4, down);
    ResolveOfPlain([], down);
    assert [] + down == down;
    assert Common(run.Active()[1..], down[1..]) == 0;
  }
}

/**
 Recording the terminal result of a run: the session file is rewritten, its
 directory is renamed into the archive and a completion record is left behind. A crash can
 fall between any two file steps; a retry starts again from the disk alone.
 Rename and JSON write are atomic; the owner file of the lock is created and filled in two
 steps. Hashes are opaque, and one process holds the lock at a time.
 */
module TerminalArchive {
  import opened PathRebase

  datatype Hash = Hash(digest: int)

  /** The fields of a session that the protocol looks at; `body` is everything else. */
  datatype Session = Session(history: seq<Hash>, terminal: bool, body: Json)

  datatype Entry =
    | SessionFile(session: Session)
    | Completion(runId: Piece, hash: Hash, target: Text)
    | Artifact(json: Json)
    | Owner(state: OwnerState)
    | Folder

  /**
   What a probe of an owner file finds: no JSON, no valid process id, the id of
   a running process, or the id of none. A dead owner's id may be given to
   another process, which makes the owner alive again.
   */
  datatype OwnerState = Torn | Invalid | Alive | Dead

  type Disk = map<Text, Entry>

  function SessionPath(run: Run): Text { run.Active() + [SessionJson] }
  function LockPath(run: Run): Text { run.Active() + [LockFolder] }
  function OwnerPath(run: Run): Text { run.Active() + [LockFolder, OwnerJson] }
  function CompletionPath(run: Run): Text { run.Active() + [CompletionJson] }
  function ArchivedPath(run: Run): Text { run.Archive() + [SessionJson] }
  function ArchivedLock(run: Run): Text { run.Archive() + [LockFolder] }
  function ArchivedOwner(run: Run): Text { run.Archive() + [LockFolder, OwnerJson] }

  /** What one attempt brings along: the body its `recordResult` would write and the artifacts it would rewrite. */
  datatype Attempt = Attempt(update: Json, todo: seq<Text>)

  /** Where an attempt stands between two file steps. */
  datatype Pc =
    | Start
    | Breaking                    // the owner file of a dead process's lock is gone, its folder is not
    | LockMade
    | OwnerMade                   // the owner file is there, but still empty
    | Locked
    | Writing(session: Session)
    | Rewriting(todo: seq<Text>)
    | Moving
    | DroppingOwner
    | DroppingLock
    | Completing
    | RecoverOwner
    | RecoverLock
    | Releasing(ok: bool)
    | ReleasingFolder(ok: bool)
    | Done(ok: bool)

  /** The recording under way: the run, the result's hash, the session before it, and what the attempts would write. */
  datatype Recording = Recording(run: Run, hash: Hash, s0: Session, updates: set<Json>) {
    ghost predicate Good() {
      && run.Plain()
      && !EndsWith(s0.history, hash)
    }
  }

  datatype State = State(disk: Disk, pc: Pc, attempt: Attempt)

  predicate EndsWith(history: seq<Hash>, hash: Hash) {
    history != [] && history[|history| - 1] == hash
  }

  function Moved(from: Text, to: Text, p: Text): Text
    requires from <= p
  {
    to + p[|from|..]
  }

  lemma MovedBack(from: Text, to: Text, p: Text)
    requires from <= p
    ensures Moved(to, from, Moved(from, to, p)) == p
  {
    assert Moved(from, to, p)[|to|..] == p[|from|..];
  }

  /** `fs.renameSync(active, archive)`, for an archive outside the active directory. */
  function Rename(disk: Disk, from: Text, to: Text): Disk {
    assert forall p, q ::
        p in disk && q in disk && from <= p && from <= q && Moved(from, to, p) == Moved(from, to, q) ==> p == q by {
      forall p, q | p in disk && q in disk && from <= p && from <= q && Moved(from, to, p) == Moved(from, to, q)
        ensures p == q
      {
        MovedBack(from, to, p);
        MovedBack(from, to, q);
      }
    }
    (map p | p in disk && !(from <= p) :: disk[p])
    + (map p | p in disk && from <= p :: Moved(from, to, p) := disk[p])
  }

  predicate Exists(disk: Disk, dir: Text) {
    exists p :: p in disk && Below(dir, p)
  }

  function BeginArchive(run: Run, disk: Disk, session: Session): Pc {
    if Exists(disk, run.Archive()) then Releasing(false) else Writing(session)
  }

  /** The decision taken once the lock is held. */
  function AfterLock(run: Run, hash: Hash, attempt: Attempt, disk: Disk): Pc {
    if SessionPath(run) !in disk then Recover(run, hash, disk)
    else
      match disk[SessionPath(run)]
      case SessionFile(s) =>
        if EndsWith(s.history, hash) then
          if s.terminal then BeginArchive(run, disk, s) else Releasing(true)
        else
          BeginArchive(run, disk, Session(s.history + [hash], true, attempt.update))
      case _ => Releasing(false)
  }

  /** `recoverTerminalRetry`: the completion record if it names this result, else the archive itself. */
  function Recover(run: Run, hash: Hash, disk: Disk): Pc {
    if CompletionPath(run) in disk && disk[CompletionPath(run)].Completion?
       && disk[CompletionPath(run)].runId == run.runId && disk[CompletionPath(run)].hash == hash then
      var target := disk[CompletionPath(run)].target;
      Releasing(target in disk && disk[target].SessionFile?)
    else if ArchivedPath(run) in disk && disk[ArchivedPath(run)].SessionFile?
            && EndsWith(disk[ArchivedPath(run)].session.history, hash) then
      RecoverOwner
    else
      Releasing(false)
  }

  /** The lock can be taken: there is none, or its owner file names a process that no longer runs. */
  predicate Free(run: Run, disk: Disk) {
    LockPath(run) !in disk || (OwnerPath(run) in disk && disk[OwnerPath(run)] == Owner(Dead))
  }

  function RewriteArtifact(run: Run, disk: Disk, p: Text): Disk {
    if run.Active() <= p && p != SessionPath(run) && p in disk && disk[p].Artifact? then
      disk[p := Artifact(Rebase(run, disk[p].json, ""))]
    else disk
  }

  /** The rename of the active directory, which the file system refuses into the directory itself. */
  function Relocate(run: Run, st: State): State {
    if run.Active() <= run.Archive() then st.(pc := Releasing(false))
    else State(Rename(st.disk, run.Active(), run.Archive()), DroppingOwner, st.attempt)
  }

  /** One file step of an attempt. */
  ghost function Step(run: Run, hash: Hash, st: State): State
    requires !st.pc.Done?
  {
    var disk := st.disk;
    match st.pc
    case Start =>
      if LockPath(run) !in disk then st.(disk := disk[LockPath(run) := Folder], pc := LockMade)
      else if Free(run, disk) then st.(disk := disk - {OwnerPath(run)}, pc := Breaking)
      else st.(pc := Done(false))
    case Breaking => st.(disk := disk - {LockPath(run)}, pc := Start)
    case LockMade => st.(disk := disk[OwnerPath(run) := Owner(Torn)], pc := OwnerMade)
    case OwnerMade => st.(disk := disk[OwnerPath(run) := Owner(Alive)], pc := Locked)
    case Locked => st.(pc := AfterLock(run, hash, st.attempt, disk))
    case Writing(s) =>
      st.(disk := disk[SessionPath(run) := SessionFile(s.(body := Rebase(run, s.body, "")))],
          pc := Rewriting(st.attempt.todo))
    case Rewriting(todo) =>
      if todo == [] then st.(pc := Moving)
      else st.(disk := RewriteArtifact(run, disk, todo[0]), pc := Rewriting(todo[1..]))
    case Moving => Relocate(run, st)
    case DroppingOwner => st.(disk := disk - {ArchivedOwner(run)}, pc := DroppingLock)
    case DroppingLock => st.(disk := disk - {ArchivedLock(run)}, pc := Completing)
    case Completing =>
      st.(disk := disk[CompletionPath(run) := Completion(run.runId, hash, ArchivedPath(run))], pc := Releasing(true))
    case RecoverOwner => st.(disk := disk - {ArchivedOwner(run)}, pc := RecoverLock)
    case RecoverLock => st.(disk := disk - {ArchivedLock(run)}, pc := Releasing(true))
    case Releasing(ok) => st.(disk := disk - {OwnerPath(run)}, pc := ReleasingFolder(ok))
    case ReleasingFolder(ok) => st.(disk := disk - {LockPath(run)}, pc := Done(ok))
  }

  /** Time passes between attempts: the process an owner file names may end, and its id may be used again. */
  predicate Later(run: Run, disk: Disk, disk': Disk) {
    || disk' == disk
    || (OwnerPath(run) in disk && disk[OwnerPath(run)] in {Owner(Alive), Owner(Dead)}
        && (disk' == disk[OwnerPath(run) := Owner(Alive)] || disk' == disk[OwnerPath(run) := Owner(Dead)]))
  }

  /** A step, or a crash (or a finished attempt) and some time later the start of a new attempt. */
  ghost predicate Next(run: Run, hash: Hash, st: State, st': State) {
    || (!st.pc.Done? && st' == Step(run, hash, st))
    || (Later(run, st.disk, st'.disk) && st'.pc == Start)
  }

  /** Any interleaving of file steps, crashes and new attempts, from a disk that does not hold the result. */
  ghost predicate Behaviour(c: Recording, trace: seq<State>) {
    && trace != []
    && Initial(c, trace[0])
    && (forall i :: 0 <= i < |trace| ==> trace[i].attempt.update in c.updates)
    && forall i :: 0 <= i < |trace| - 1 ==> Next(c.run, c.hash, trace[i], trace[i + 1])
  }

  /** An active session and no archive of the run. A completion record or a lock may be left over. */
  ghost predicate Initial(c: Recording, st: State) {
    && st.pc == Start
    && SessionPath(c.run) in st.disk && st.disk[SessionPath(c.run)] == SessionFile(c.s0)
    && !Exists(st.disk, c.run.Archive())
  }

  // -------------------------------------------------------------- invariants

  /** The body of some attempt with its paths moved at least `least` times. */
  ghost predicate MovedBody(c: Recording, least: nat, body: Json) {
    exists u, n: nat :: u in c.updates && least <= n && body == RebaseTimes(c.run, u, n)
  }

  /** The session as some attempt recorded it: the result appended once, the paths moved. */
  ghost predicate Recorded(c: Recording, s: Session) {
    s.history == c.s0.history + [c.hash] && s.terminal && MovedBody(c, 1, s.body)
  }

  /** The session about to be written: new, or read back from the disk. */
  ghost predicate ToWrite(c: Recording, s: Session) {
    s.history == c.s0.history + [c.hash] && s.terminal && MovedBody(c, 0, s.body)
  }

  ghost predicate ActiveSide(c: Recording, disk: Disk, pc: Pc) {
    && SessionPath(c.run) in disk && disk[SessionPath(c.run)].SessionFile?
    && !Exists(disk, c.run.Archive())
    && var s := disk[SessionPath(c.run)].session;
    && (s == c.s0 || Recorded(c, s))
    && (pc.Writing? ==> ToWrite(c, pc.session))
    && (pc.Rewriting? || pc.Moving? ==> Recorded(c, s))
    && !pc.DroppingOwner? && !pc.DroppingLock? && !pc.Completing? && !pc.RecoverOwner? && !pc.RecoverLock?
    && (pc.Releasing? || pc.ReleasingFolder? || pc.Done? ==> !pc.ok)
  }

  ghost predicate ArchivedSide(c: Recording, disk: Disk, pc: Pc) {
    && SessionPath(c.run) !in disk
    && ArchivedPath(c.run) in disk && disk[ArchivedPath(c.run)].SessionFile?
    && Recorded(c, disk[ArchivedPath(c.run)].session)
    && (CompletionPath(c.run) in disk ==>
          disk[CompletionPath(c.run)] == Completion(c.run.runId, c.hash, ArchivedPath(c.run)))
    && !pc.Writing? && !pc.Rewriting? && !pc.Moving?
    && (pc.Releasing? || pc.ReleasingFolder? ==> pc.ok)
  }

  ghost predicate Inv(c: Recording, st: State) {
    ActiveSide(c, st.disk, st.pc) || ArchivedSide(c, st.disk, st.pc)
  }

  predicate Below(dir: Text, p: Text) {
    dir <= p
  }

  /** The paths of the protocol are different from each other. */
  lemma DistinctPaths(run: Run)
    requires run.Plain()
    ensures !(run.Active() <= run.Archive()) && !(run.Archive() <= run.Active())
    ensures forall p {:trigger Below(run.Active(), p)} {:trigger Below(run.Archive(), p)} ::
              Below(run.Active(), p) ==> !Below(run.Archive(), p)
    ensures run.Active() <= SessionPath(run) && run.Active() <= LockPath(run) && run.Active() <= OwnerPath(run)
            && run.Active() <= CompletionPath(run)
    ensures run.Archive() <= ArchivedPath(run) && run.Archive() <= ArchivedLock(run)
            && run.Archive() <= ArchivedOwner(run)
    ensures SessionPath(run) != LockPath(run) && SessionPath(run) != OwnerPath(run)
            && SessionPath(run) != CompletionPath(run)
    ensures LockPath(run) != OwnerPath(run) && LockPath(run) != CompletionPath(run)
            && OwnerPath(run) != CompletionPath(run)
    ensures ArchivedPath(run) != ArchivedLock(run) && ArchivedPath(run) != ArchivedOwner(run)
  {
    hide PlainPiece;
    var n := |run.Sessions()|;
    assert run.Active()[n] == run.slug && run.Archive()[n] == Completed;
    assert SessionPath(run)[n + 1] == SessionJson && LockPath(run)[n + 1] == LockFolder
           && OwnerPath(run)[n + 1] == LockFolder && CompletionPath(run)[n + 1] == CompletionJson;
    assert ArchivedPath(run)[n + 3] == SessionJson && ArchivedLock(run)[n + 3] == LockFolder
           && ArchivedOwner(run)[n + 3] == LockFolder;
  }

  lemma RenameFacts(disk: Disk, from: Text, to: Text, q: Text)
    requires from <= q && q in disk && !(from <= to) && !(to <= from)
    ensures Moved(from, to, q) in Rename(disk, from, to) && Rename(disk, from, to)[Moved(from, to, q)] == disk[q]
  {
    forall p | p in disk && from <= p && Moved(from, to, p) == Moved(from, to, q)
      ensures p == q
    {
      MovedBack(from, to, p);
      MovedBack(from, to, q);
    }
  }

  lemma Comparable(a: Text, b: Text, p: Text)
    requires a <= p && b <= p
    ensures a <= b || b <= a
  {
    if |a| <= |b| {
      assert b[..|a|] == p[..|a|] == a;
    } else {
      assert a[..|b|] == p[..|b|] == b;
    }
  }

  /** Nothing stays below the old name. */
  lemma RenamedAway(disk: Disk, from: Text, to: Text, p: Text)
    requires !(from <= to) && !(to <= from) && from <= p
    ensures p !in Rename(disk, from, to)
  {
    if to <= p {
      Comparable(from, to, p);
    }
  }

  /** The rename carries the session file over and leaves neither it nor a completion record behind. */
  lemma RenameCarriesSession(run: Run, disk: Disk)
    requires run.Plain() && SessionPath(run) in disk
    ensures var disk' := Rename(disk, run.Active(), run.Archive());
            && SessionPath(run) !in disk' && CompletionPath(run) !in disk'
            && ArchivedPath(run) in disk' && disk'[ArchivedPath(run)] == disk[SessionPath(run)]
  {
    hide PlainPiece;
    DistinctPaths(run);
    var from, to := run.Active(), run.Archive();
    RenameFacts(disk, from, to, SessionPath(run));
    RenamedAway(disk, from, to, SessionPath(run));
    RenamedAway(disk, from, to, CompletionPath(run));
    assert Moved(from, to, SessionPath(run)) == ArchivedPath(run);
  }

  lemma MoveStep(run: Run, st: State) returns (disk': Disk)
    requires run.Plain() && SessionPath(run) in st.disk
    ensures Relocate(run, st) == st.(disk := disk', pc := DroppingOwner)
    ensures SessionPath(run) !in disk' && CompletionPath(run) !in disk'
    ensures ArchivedPath(run) in disk' && disk'[ArchivedPath(run)] == st.disk[SessionPath(run)]
  {
    hide PlainPiece;
    disk' := Rename(st.disk, run.Active(), run.Archive());
    RenameCarriesSession(run, st.disk);
    assert !(run.Active() <= run.Archive()) by {
      assert run.Active()[|run.Sessions()|] == run.slug && run.Archive()[|run.Sessions()|] == Completed;
    }
  }

  /** The decision under the lock leaves the session active. */
  lemma LockedKeepsActive(c: Recording, disk: Disk, attempt: Attempt)
    requires c.Good() && attempt.update in c.updates && ActiveSide(c, disk, Locked)
    ensures ActiveSide(c, disk, AfterLock(c.run, c.hash, attempt, disk))
  {
    hide PlainPiece;
    WhatIsNewOrMoved(c, attempt.update);
    WhatIsNewOrMoved(c, disk[SessionPath(c.run)].session.body);
    hide SessionPath;
    hide Rebase;
    hide MovedBody;
  }

  lemma WriteKeepsActive(c: Recording, st: State)
    requires c.Good() && st.pc.Writing? && ActiveSide(c, st.disk, st.pc)
    ensures ActiveSide(c, Step(c.run, c.hash, st).disk, Step(c.run, c.hash, st).pc)
  {
    hide PlainPiece;
    DistinctPaths(c.run);
    WritingMoves(c, st.pc.session.body);
    hide SessionPath;
    hide Rebase;
    hide AfterLock;
    hide MovedBody;
  }

  lemma WritingMoves(c: Recording, body: Json)
    requires MovedBody(c, 0, body)
    ensures MovedBody(c, 1, Rebase(c.run, body, ""))
  {
    var u, n: nat :| u in c.updates && body == RebaseTimes(c.run, u, n);
    assert Rebase(c.run, body, "") == RebaseTimes(c.run, u, n + 1);
  }

  lemma WhatIsNewOrMoved(c: Recording, body: Json)
    ensures body in c.updates ==> MovedBody(c, 0, body)
    ensures MovedBody(c, 1, body) ==> MovedBody(c, 0, body)
  {
    assert RebaseTimes(c.run, body, 0) == body;
  }

  /** Before the rename every step keeps the session active. */
  lemma StepKeepsActive(c: Recording, st: State)
    requires c.Good() && st.attempt.update in c.updates
    requires !st.pc.Done? && !st.pc.Moving? && ActiveSide(c, st.disk, st.pc)
    ensures ActiveSide(c, Step(c.run, c.hash, st).disk, Step(c.run, c.hash, st).pc)
  {
    hide PlainPiece;
    DistinctPaths(c.run);
    if st.pc.Locked? {
      LockedKeepsActive(c, st.disk, st.attempt);
    } else if st.pc.Writing? {
      WriteKeepsActive(c, st);
    } else {
      hide SessionPath;
      hide LockPath;
      hide OwnerPath;
      hide CompletionPath;
      hide AfterLock;
      hide Recorded;
      hide ToWrite;
      hide Rebase;
    }
  }

  lemma MoveArchives(c: Recording, st: State)
    requires c.Good() && st.pc.Moving? && ActiveSide(c, st.disk, st.pc)
    ensures ArchivedSide(c, Step(c.run, c.hash, st).disk, Step(c.run, c.hash, st).pc)
  {
    hide PlainPiece;
    hide SessionPath;
    hide LockPath;
    hide OwnerPath;
    hide CompletionPath;
    hide ArchivedPath;
    hide ArchivedLock;
    hide ArchivedOwner;
    hide Recorded;
    hide Rename;
    var disk' := MoveStep(c.run, st);
    assert ArchivedSide(c, disk', DroppingOwner);
  }

  /** After the rename every step keeps the session archived. */
  lemma StepKeepsArchived(c: Recording, st: State)
    requires c.Good() && !st.pc.Done? && ArchivedSide(c, st.disk, st.pc)
    ensures ArchivedSide(c, Step(c.run, c.hash, st).disk, Step(c.run, c.hash, st).pc)
  {
    hide PlainPiece;
    hide SessionPath;
    hide LockPath;
    hide OwnerPath;
    hide CompletionPath;
    hide ArchivedPath;
    hide ArchivedLock;
    hide ArchivedOwner;
    hide Rename;
    DistinctPaths(c.run);
  }

  lemma StepKeepsInv(c: Recording, st: State)
    requires c.Good() && st.attempt.update in c.updates && !st.pc.Done? && Inv(c, st)
    ensures Inv(c, Step(c.run, c.hash, st))
  {
    hide PlainPiece;
    if ArchivedSide(c, st.disk, st.pc) {
      StepKeepsArchived(c, st);
    } else if st.pc.Moving? {
      MoveArchives(c, st);
    } else {
      StepKeepsActive(c, st);
    }
  }

  /** The invariant holds in every state of every run, whatever crashes and retries it contains. */
  lemma {:induction false} InvHolds(c: Recording, trace: seq<State>, i: nat)
    requires c.Good() && Behaviour(c, trace) && i < |trace|
    ensures Inv(c, trace[i])
  {
    hide PlainPiece;
    if i > 0 {
      InvHolds(c, trace, i - 1);
      assert Next(c.run, c.hash, trace[i - 1], trace[i - 1 + 1]);
      hide Inv;
      hide Step;
      hide Later;
      if !trace[i - 1].pc.Done? && trace[i] == Step(c.run, c.hash, trace[i - 1]) {
        StepKeepsInv(c, trace[i - 1]);
      } else {
        RestartKeepsInv(c, trace[i - 1], trace[i]);
      }
    }
  }

  lemma RestartKeepsInv(c: Recording, st: State, st': State)
    requires c.Good() && Inv(c, st) && Later(c.run, st.disk, st'.disk) && st'.pc == Start
    ensures Inv(c, st')
  {
    hide PlainPiece;
    DistinctPaths(c.run);
    assert Below(c.run.Active(), OwnerPath(c.run)) && Below(c.run.Archive(), ArchivedPath(c.run));
    hide SessionPath;
    hide OwnerPath;
    hide CompletionPath;
    hide ArchivedPath;
    hide Recorded;
    hide ToWrite;
  }

  /**
   Exactly one of the active and the archived session file exists. The one that
   exists has the old history or the old history with the result appended once;
   the archived one always has it, with the body of one of the attempts.
   */
  lemma OneSessionFile(c: Recording, trace: seq<State>, i: nat)
    requires c.Good() && Behaviour(c, trace) && i < |trace|
    ensures var disk, active, archived := trace[i].disk, SessionPath(c.run), ArchivedPath(c.run);
            && (active in disk <==> archived !in disk)
            && (active in disk ==>
                  disk[active].SessionFile? && (disk[active].session == c.s0 || Recorded(c, disk[active].session)))
            && (archived in disk ==> disk[archived].SessionFile? && Recorded(c, disk[archived].session))
  {
    hide PlainPiece;
    InvHolds(c, trace, i);
    DistinctPaths(c.run);
    assert ArchivedPath(c.run) in trace[i].disk ==> Below(c.run.Archive(), ArchivedPath(c.run));
  }

  // -------------------------------------------------------- untouched files

  /** Nothing outside the two directories of the run is created, changed or removed. */
  lemma {:induction false} OutsideUntouched(c: Recording, trace: seq<State>, i: nat, p: Text)
    requires c.Good() && Behaviour(c, trace) && i < |trace|
    requires !(c.run.Active() <= p) && !(c.run.Archive() <= p)
    ensures p in trace[i].disk <==> p in trace[0].disk
    ensures p in trace[0].disk ==> trace[i].disk[p] == trace[0].disk[p]
  {
    hide PlainPiece;
    if i > 0 {
      OutsideUntouched(c, trace, i - 1, p);
      assert Next(c.run, c.hash, trace[i - 1], trace[i - 1 + 1]);
      hide Step;
      hide Later;
      if !trace[i - 1].pc.Done? && trace[i] == Step(c.run, c.hash, trace[i - 1]) {
        StepLeavesOutside(c.run, c.hash, trace[i - 1], p);
      } else {
        LaterLeavesOutside(c.run, trace[i - 1].disk, trace[i].disk, p);
      }
    }
  }

  lemma StepLeavesOutside(run: Run, hash: Hash, st: State, p: Text)
    requires run.Plain() && !st.pc.Done? && !(run.Active() <= p) && !(run.Archive() <= p)
    ensures p in Step(run, hash, st).disk <==> p in st.disk
    ensures p in st.disk ==> Step(run, hash, st).disk[p] == st.disk[p]
  {
    hide PlainPiece;
    if st.pc.Moving? {
      RelocateLeavesOutside(run, st, p);
    } else {
      DistinctPaths(run);
      hide SessionPath;
      hide LockPath;
      hide OwnerPath;
      hide CompletionPath;
      hide ArchivedPath;
      hide ArchivedLock;
      hide ArchivedOwner;
      hide AfterLock;
      hide Free;
      hide Rebase;
    }
  }

  lemma LaterLeavesOutside(run: Run, disk: Disk, disk': Disk, p: Text)
    requires run.Plain() && Later(run, disk, disk') && !(run.Active() <= p)
    ensures p in disk' <==> p in disk
    ensures p in disk ==> disk'[p] == disk[p]
  {
    hide PlainPiece;
    DistinctPaths(run);
    hide OwnerPath;
  }

  lemma RelocateLeavesOutside(run: Run, st: State, p: Text)
    requires !(run.Active() <= p) && !(run.Archive() <= p)
    ensures p in Relocate(run, st).disk <==> p in st.disk
    ensures p in st.disk ==> Relocate(run, st).disk[p] == st.disk[p]
  {
  }

  /** Where an artifact of the run directory is: in place, or at the same place in the archive. */
  ghost function Location(run: Run, disk: Disk, p: Text): Text
    requires run.Active() <= p
  {
    if SessionPath(run) in disk then p else Moved(run.Active(), run.Archive(), p)
  }

  /** No artifact of the run is lost: it stays in place until the rename and is in the archive afterwards. */
  lemma {:induction false} ArtifactsKept(c: Recording, trace: seq<State>, i: nat, p: Text)
    requires c.Good() && Behaviour(c, trace) && i < |trace|
    requires c.run.Active() <= p && p != LockPath(c.run) && p != OwnerPath(c.run)
    requires ArtifactAt(trace[0].disk, p)
    ensures ArtifactAt(trace[i].disk, Location(c.run, trace[i].disk, p))
  {
    hide PlainPiece;
    if i == 0 {
      assert Location(c.run, trace[0].disk, p) == p;
    } else {
      ArtifactsKept(c, trace, i - 1, p);
      InvHolds(c, trace, i - 1);
      assert Next(c.run, c.hash, trace[i - 1], trace[i - 1 + 1]);
      hide Inv;
      hide Step;
      hide Later;
      hide Location;
      hide ArtifactAt;
      hide LockPath;
      hide OwnerPath;
      if !trace[i - 1].pc.Done? && trace[i] == Step(c.run, c.hash, trace[i - 1]) {
        StepKeepsArtifact(c, trace[i - 1], p);
      } else {
        LaterKeepsArtifact(c.run, trace[i - 1].disk, trace[i].disk, p);
      }
    }
  }

  lemma LaterKeepsArtifact(run: Run, disk: Disk, disk': Disk, p: Text)
    requires run.Plain() && Later(run, disk, disk') && run.Active() <= p
    requires ArtifactAt(disk, Location(run, disk, p))
    ensures ArtifactAt(disk', Location(run, disk', p))
  {
    hide PlainPiece;
    DistinctPaths(run);
    hide SessionPath;
    hide OwnerPath;
  }

  ghost predicate ArtifactAt(disk: Disk, q: Text) {
    q in disk && disk[q].Artifact?
  }

  lemma StepKeepsArtifact(c: Recording, st: State, p: Text)
    requires c.Good() && st.attempt.update in c.updates && !st.pc.Done? && Inv(c, st)
    requires c.run.Active() <= p && p != LockPath(c.run) && p != OwnerPath(c.run)
    requires ArtifactAt(st.disk, Location(c.run, st.disk, p))
    ensures var st' := Step(c.run, c.hash, st); ArtifactAt(st'.disk, Location(c.run, st'.disk, p))
  {
    hide PlainPiece;
    if ArchivedSide(c, st.disk, st.pc) {
      ArchivedStepKeepsArtifact(c, st, p);
    } else if st.pc.Moving? {
      MoveKeepsArtifact(c, st, p);
    } else {
      ActiveStepKeepsArtifact(c, st, p);
    }
  }

  lemma ArchivedStepKeepsArtifact(c: Recording, st: State, p: Text)
    requires c.Good() && !st.pc.Done? && ArchivedSide(c, st.disk, st.pc)
    requires c.run.Active() <= p && p != LockPath(c.run) && p != OwnerPath(c.run)
    requires ArtifactAt(st.disk, Location(c.run, st.disk, p))
    ensures var st' := Step(c.run, c.hash, st); ArtifactAt(st'.disk, Location(c.run, st'.disk, p))
  {
    hide PlainPiece;
    StepKeepsArchived(c, st);
    ArchivedArtifactStays(c.run, c.hash, st, p);
    SidesTell(c, Step(c.run, c.hash, st), p);
  }

  lemma MoveKeepsArtifact(c: Recording, st: State, p: Text)
    requires c.Good() && st.pc.Moving? && ActiveSide(c, st.disk, st.pc)
    requires c.run.Active() <= p && p != LockPath(c.run) && p != OwnerPath(c.run)
    requires ArtifactAt(st.disk, Location(c.run, st.disk, p))
    ensures var st' := Step(c.run, c.hash, st); ArtifactAt(st'.disk, Location(c.run, st'.disk, p))
  {
    hide PlainPiece;
    hide SessionPath;
    hide LockPath;
    hide OwnerPath;
    hide CompletionPath;
    hide ArchivedPath;
    hide ArchivedLock;
    hide ArchivedOwner;
    hide Recorded;
    hide Rename;
    MoveArchives(c, st);
    DistinctPaths(c.run);
    RelocateCarries(c.run, st, p);
    SidesTell(c, Step(c.run, c.hash, st), p);
  }

  lemma ActiveStepKeepsArtifact(c: Recording, st: State, p: Text)
    requires c.Good() && st.attempt.update in c.updates
    requires !st.pc.Done? && !st.pc.Moving? && ActiveSide(c, st.disk, st.pc)
    requires c.run.Active() <= p && p != LockPath(c.run) && p != OwnerPath(c.run)
    requires ArtifactAt(st.disk, Location(c.run, st.disk, p))
    ensures var st' := Step(c.run, c.hash, st); ArtifactAt(st'.disk, Location(c.run, st'.disk, p))
  {
    hide PlainPiece;
    StepKeepsActive(c, st);
    ActiveArtifactStays(c.run, c.hash, st, p);
    SidesTell(c, Step(c.run, c.hash, st), p);
  }

  lemma SidesTell(c: Recording, st: State, p: Text)
    requires c.run.Active() <= p
    ensures ActiveSide(c, st.disk, st.pc) ==> Location(c.run, st.disk, p) == p
    ensures ArchivedSide(c, st.disk, st.pc) ==> Location(c.run, st.disk, p) == Moved(c.run.Active(), c.run.Archive(), p)
  {
  }

  lemma ActiveArtifactStays(run: Run, hash: Hash, st: State, p: Text)
    requires run.Plain() && !st.pc.Done? && !st.pc.Moving?
    requires run.Active() <= p && p != LockPath(run) && p != OwnerPath(run) && p != SessionPath(run)
    requires p in st.disk && st.disk[p].Artifact?
    requires !st.pc.DroppingOwner? && !st.pc.DroppingLock? && !st.pc.Completing?
             && !st.pc.RecoverOwner? && !st.pc.RecoverLock?
    ensures p in Step(run, hash, st).disk && Step(run, hash, st).disk[p].Artifact?
  {
    hide PlainPiece;
  }

  lemma RelocateCarries(run: Run, st: State, p: Text)
    requires run.Plain() && run.Active() <= p && p in st.disk
    requires !(run.Active() <= run.Archive()) && !(run.Archive() <= run.Active())
    ensures var q := Moved(run.Active(), run.Archive(), p);
            q in Relocate(run, st).disk && Relocate(run, st).disk[q] == st.disk[p]
  {
    hide PlainPiece;
    RenameFacts(st.disk, run.Active(), run.Archive(), p);
  }

  lemma ArchivedArtifactStays(run: Run, hash: Hash, st: State, p: Text)
    requires run.Plain() && !st.pc.Done? && !st.pc.Writing? && !st.pc.Rewriting? && !st.pc.Moving?
    requires run.Active() <= p && p != LockPath(run) && p != OwnerPath(run)
    requires Moved(run.Active(), run.Archive(), p) in st.disk
    ensures var q, st' := Moved(run.Active(), run.Archive(), p), Step(run, hash, st);
            q in st'.disk && st'.disk[q] == st.disk[q]
  {
    hide PlainPiece;
    MovedElsewhere(run, p);
    hide SessionPath;
    hide LockPath;
    hide OwnerPath;
    hide CompletionPath;
    hide ArchivedPath;
    hide ArchivedLock;
    hide ArchivedOwner;
    hide Moved;
    hide AfterLock;
    hide Free;
  }

  /** In the archive, only the lock's own files go where the active lock's files would. */
  lemma MovedElsewhere(run: Run, p: Text)
    requires run.Plain() && run.Active() <= p && p != LockPath(run) && p != OwnerPath(run)
    ensures var q := Moved(run.Active(), run.Archive(), p);
            && q != ArchivedLock(run) && q != ArchivedOwner(run)
            && q != LockPath(run) && q != OwnerPath(run) && q != CompletionPath(run)
  {
    hide PlainPiece;
    var from, to := run.Active(), run.Archive();
    DistinctPaths(run);
    MovedBack(from, to, p);
    MovedBack(from, to, LockPath(run));
    MovedBack(from, to, OwnerPath(run));
    assert Moved(from, to, LockPath(run)) == ArchivedLock(run);
    assert Moved(from, to, OwnerPath(run)) == ArchivedOwner(run);
    assert Below(to, Moved(from, to, p));
    assert Below(from, LockPath(run)) && Below(from, OwnerPath(run)) && Below(from, CompletionPath(run));
  }

  // ---------------------------------------------------------- a retry's end

  ghost function Rank(run: Run, st: State): nat {
    match st.pc
    case Start => |st.attempt.todo| + if LockPath(run) in st.disk then 30 else 20
    case Breaking => |st.attempt.todo| + 25
    case LockMade => |st.attempt.todo| + 16
    case OwnerMade => |st.attempt.todo| + 15
    case Locked => |st.attempt.todo| + 14
    case Writing(_) => |st.attempt.todo| + 12
    case Rewriting(todo) => |todo| + 10
    case Moving => 9
    case DroppingOwner => 8
    case DroppingLock => 7
    case RecoverOwner => 8
    case RecoverLock => 7
    case Completing => 6
    case Releasing(_) => 5
    case ReleasingFolder(_) => 4
    case Done(_) => 0
  }

  lemma StepLowersRank(run: Run, hash: Hash, st: State)
    requires !st.pc.Done?
    ensures Rank(run, Step(run, hash, st)) < Rank(run, st)
  {
    if st.pc.Locked? {
      LockedLowersRank(run, hash, st);
    } else if InLocking(st.pc) {
      LockingLowersRank(run, hash, st);
    } else {
      LaterLowersRank(run, hash, st);
    }
  }

  lemma LaterLowersRank(run: Run, hash: Hash, st: State)
    requires !st.pc.Done? && !st.pc.Locked? && !InLocking(st.pc)
    ensures Rank(run, Step(run, hash, st)) < Rank(run, st)
  {
    hide LockPath;
    hide OwnerPath;
    hide SessionPath;
    hide CompletionPath;
    hide ArchivedPath;
    hide ArchivedLock;
    hide ArchivedOwner;
    hide RewriteArtifact;
    hide Rename;
    hide Rebase;
    hide Free;
    hide AfterLock;
  }

  predicate InLocking(pc: Pc) {
    pc.Start? || pc.Breaking? || pc.LockMade? || pc.OwnerMade?
  }

  lemma LockingLowersRank(run: Run, hash: Hash, st: State)
    requires InLocking(st.pc)
    ensures Rank(run, Step(run, hash, st)) < Rank(run, st)
  {
    Without(st.disk, LockPath(run), LockPath(run));
    hide LockPath;
    hide OwnerPath;
    hide Free;
    hide AfterLock;
    hide Relocate;
  }

  lemma LockedLowersRank(run: Run, hash: Hash, st: State)
    requires st.pc.Locked?
    ensures Rank(run, st.(pc := AfterLock(run, hash, st.attempt, st.disk))) < Rank(run, st)
  {
    hide LockPath;
    hide SessionPath;
    hide CompletionPath;
    hide ArchivedPath;
    hide EndsWith;
    hide Exists;
  }

  /** The attempt carried on to its end without a crash. */
  ghost function Finish(run: Run, hash: Hash, st: State): State
    decreases Rank(run, st)
  {
    if st.pc.Done? then st
    else
      StepLowersRank(run, hash, st);
      Finish(run, hash, Step(run, hash, st))
  }

  /** An attempt under way that will end well. */
  ghost predicate OnTheWay(c: Recording, st: State) {
    && Inv(c, st) && st.attempt.update in c.updates
    && (st.pc.Start? ==> Free(c.run, st.disk))
    && (st.pc.Releasing? || st.pc.ReleasingFolder? || st.pc.Done? ==> st.pc.ok)
  }

  lemma StepStaysOnTheWay(c: Recording, st: State)
    requires c.Good() && OnTheWay(c, st) && !st.pc.Done?
    ensures OnTheWay(c, Step(c.run, c.hash, st))
  {
    hide PlainPiece;
    hide SessionPath;
    hide LockPath;
    hide OwnerPath;
    hide CompletionPath;
    hide ArchivedPath;
    hide ArchivedLock;
    hide ArchivedOwner;
    hide Recorded;
    hide Rename;
    StepKeepsInv(c, st);
    DistinctPaths(c.run);
  }

  lemma {:induction false} FinishArchives(c: Recording, st: State)
    requires c.Good() && OnTheWay(c, st)
    ensures var end := Finish(c.run, c.hash, st);
            end.pc == Done(true) && ArchivedSide(c, end.disk, end.pc)
    decreases Rank(c.run, st)
  {
    hide PlainPiece;
    if !st.pc.Done? {
      StepLowersRank(c.run, c.hash, st);
      StepStaysOnTheWay(c, st);
      FinishArchives(c, Step(c.run, c.hash, st));
    }
  }

  /**
   After any crashes, an uncrashed retry ends with the session archived, the
   result as its last history entry and the paths moved, exactly when the lock
   is free: no crash left a lock folder, or its owner file is whole and names a
   process that no longer runs. Any other lock makes the retry fail and change
   nothing.
   */
  lemma UncrashedRetry(c: Recording, trace: seq<State>, i: nat)
    requires c.Good() && Behaviour(c, trace) && i < |trace| && trace[i].pc == Start
    ensures var end := Finish(c.run, c.hash, trace[i]);
            if Free(c.run, trace[i].disk) then
              && end.pc == Done(true)
              && SessionPath(c.run) !in end.disk
              && ArchivedPath(c.run) in end.disk && end.disk[ArchivedPath(c.run)].SessionFile?
              && Recorded(c, end.disk[ArchivedPath(c.run)].session)
            else
              end.pc == Done(false) && end.disk == trace[i].disk
  {
    hide PlainPiece;
    InvHolds(c, trace, i);
    if Free(c.run, trace[i].disk) {
      FinishArchives(c, trace[i]);
    } else {
      assert Step(c.run, c.hash, trace[i]) == trace[i].(pc := Done(false));
    }
  }

  // ------------------------------------------------------- what crashes reach

  /** Some run reaches the state. */
  ghost predicate Reached(c: Recording, st: State) {
    exists trace :: Behaviour(c, trace) && trace[|trace| - 1] == st
  }

  lemma NextReached(c: Recording, st: State, st': State)
    requires Reached(c, st) && st'.attempt.update in c.updates && Next(c.run, c.hash, st, st')
    ensures Reached(c, st')
  {
    hide Next;
    hide Initial;
    var trace :| Behaviour(c, trace) && trace[|trace| - 1] == st;
    var longer := trace + [st'];
    forall i | 0 <= i < |longer| - 1
      ensures Next(c.run, c.hash, longer[i], longer[i + 1])
    {
      if i < |trace| - 1 {
        assert Next(c.run, c.hash, trace[i], trace[i + 1]);
      }
    }
    assert Behaviour(c, longer) && longer[|longer| - 1] == st';
  }

  lemma StepReached(c: Recording, st: State) returns (st': State)
    requires Reached(c, st) && st.attempt.update in c.updates && !st.pc.Done?
    ensures st' == Step(c.run, c.hash, st) && Reached(c, st')
    ensures st'.attempt == st.attempt
  {
    st' := Step(c.run, c.hash, st);
    StepKeepsAttempt(c.run, c.hash, st);
    hide Reached;
    hide Step;
    NextReached(c, st, st');
  }

  lemma StepKeepsAttempt(run: Run, hash: Hash, st: State)
    requires !st.pc.Done?
    ensures Step(run, hash, st).attempt == st.attempt
  {
    hide AfterLock;
    hide RewriteArtifact;
    hide Rename;
  }

  lemma TakingSteps(run: Run, hash: Hash, disk: Disk, attempt: Attempt)
    requires LockPath(run) !in disk
    ensures var made := disk[LockPath(run) := Folder];
            var torn := made[OwnerPath(run) := Owner(Torn)];
            && Step(run, hash, State(disk, Start, attempt)) == State(made, LockMade, attempt)
            && Step(run, hash, State(made, LockMade, attempt)) == State(torn, OwnerMade, attempt)
            && Step(run, hash, State(torn, OwnerMade, attempt))
               == State(torn[OwnerPath(run) := Owner(Alive)], Locked, attempt)
  {
    hide LockPath;
    hide OwnerPath;
  }

  lemma BreakingSteps(run: Run, hash: Hash, disk: Disk, attempt: Attempt)
    requires LockPath(run) in disk && Free(run, disk)
    ensures var unowned := disk - {OwnerPath(run)};
            && Step(run, hash, State(disk, Start, attempt)) == State(unowned, Breaking, attempt)
            && Step(run, hash, State(unowned, Breaking, attempt)) == State(unowned - {LockPath(run)}, Start, attempt)
  {
    hide LockPath;
    hide OwnerPath;
  }

  lemma InitialReached(c: Recording, st: State)
    requires Initial(c, st) && st.attempt.update in c.updates
    ensures Reached(c, st)
  {
    assert Behaviour(c, [st]);
    assert [st][|[st]| - 1] == st;
  }

  /** A free lock is taken; the session file stays as it is. */
  lemma LockReached(c: Recording, st: State) returns (st': State)
    requires c.Good() && Reached(c, st) && st.attempt.update in c.updates
    requires st.pc == Start && Free(c.run, st.disk) && SessionPath(c.run) in st.disk
    ensures Reached(c, st') && st'.pc == Locked && st'.attempt == st.attempt
    ensures OwnerPath(c.run) in st'.disk && st'.disk[OwnerPath(c.run)] == Owner(Alive)
    ensures SessionPath(c.run) in st'.disk && st'.disk[SessionPath(c.run)] == st.disk[SessionPath(c.run)]
  {
    hide PlainPiece;
    hide Reached;
    hide SessionPath;
    hide LockPath;
    hide OwnerPath;
    hide Free;
    st' := st;
    if LockPath(c.run) in st.disk {
      st' := BreakReached(c, st);
    }
    st' := TakeReached(c, st');
  }

  lemma BreakReached(c: Recording, st: State) returns (st': State)
    requires c.Good() && Reached(c, st) && st.attempt.update in c.updates
    requires st.pc == Start && Free(c.run, st.disk) && LockPath(c.run) in st.disk && SessionPath(c.run) in st.disk
    ensures Reached(c, st') && st'.pc == Start && st'.attempt == st.attempt && LockPath(c.run) !in st'.disk
    ensures SessionPath(c.run) in st'.disk && st'.disk[SessionPath(c.run)] == st.disk[SessionPath(c.run)]
  {
    hide PlainPiece;
    var disk, session, lock, owner := st.disk, SessionPath(c.run), LockPath(c.run), OwnerPath(c.run);
    BreakingSteps(c.run, c.hash, disk, st.attempt);
    DistinctPaths(c.run);
    Without(disk, owner, session);
    Without(disk - {owner}, lock, session);
    hide Reached;
    hide SessionPath;
    hide LockPath;
    hide OwnerPath;
    hide Free;
    hide Step;
    st' := StepReached(c, st);
    st' := StepReached(c, st');
    assert st'.disk == disk - {owner} - {lock};
  }

  lemma Without(disk: Disk, p: Text, q: Text)
    ensures p !in disk - {p}
    ensures q in disk && q != p ==> q in disk - {p} && (disk - {p})[q] == disk[q]
  {
  }

  lemma TakeReached(c: Recording, st: State) returns (st': State)
    requires c.Good() && Reached(c, st) && st.attempt.update in c.updates
    requires st.pc == Start && LockPath(c.run) !in st.disk && SessionPath(c.run) in st.disk
    ensures Reached(c, st') && st'.pc == Locked && st'.attempt == st.attempt
    ensures OwnerPath(c.run) in st'.disk && st'.disk[OwnerPath(c.run)] == Owner(Alive)
    ensures SessionPath(c.run) in st'.disk && st'.disk[SessionPath(c.run)] == st.disk[SessionPath(c.run)]
  {
    hide PlainPiece;
    var disk, session, lock, owner := st.disk, SessionPath(c.run), LockPath(c.run), OwnerPath(c.run);
    TakingSteps(c.run, c.hash, disk, st.attempt);
    DistinctPaths(c.run);
    With(disk, lock, Folder, session);
    With(disk[lock := Folder], owner, Owner(Torn), session);
    With(disk[lock := Folder][owner := Owner(Torn)], owner, Owner(Alive), session);
    hide Reached;
    hide SessionPath;
    hide LockPath;
    hide OwnerPath;
    hide Step;
    st' := StepReached(c, st);
    st' := StepReached(c, st');
    st' := StepReached(c, st');
    assert st'.disk == disk[lock := Folder][owner := Owner(Torn)][owner := Owner(Alive)];
  }

  lemma With(disk: Disk, p: Text, e: Entry, q: Text)
    ensures p in disk[p := e] && disk[p := e][p] == e
    ensures q in disk && q != p ==> q in disk[p := e] && disk[p := e][q] == disk[q]
  {
  }

  lemma ReachedInv(c: Recording, st: State)
    requires c.Good() && Reached(c, st)
    ensures Inv(c, st)
  {
    hide PlainPiece;
    var trace :| Behaviour(c, trace) && trace[|trace| - 1] == st;
    InvHolds(c, trace, |trace| - 1);
  }

  lemma LockedIsFree(c: Recording, st: State)
    requires c.Good() && Reached(c, st) && SessionPath(c.run) in st.disk
    ensures !Exists(st.disk, c.run.Archive())
  {
    hide PlainPiece;
    ReachedInv(c, st);
    hide Reached;
    hide Recorded;
    hide ToWrite;
    hide SessionPath;
    hide ArchivedPath;
    hide CompletionPath;
  }

  /** From the lock to the write: the body that goes to the disk is moved once more. */
  lemma WriteReached(c: Recording, st: State, session: Session) returns (st': State)
    requires c.Good() && Reached(c, st) && st.attempt.update in c.updates && st.pc == Locked
    requires AfterLock(c.run, c.hash, st.attempt, st.disk) == BeginArchive(c.run, st.disk, session)
    requires SessionPath(c.run) in st.disk
    requires OwnerPath(c.run) in st.disk && st.disk[OwnerPath(c.run)] == Owner(Alive)
    ensures Reached(c, st') && st'.pc.Rewriting? && st'.attempt == st.attempt
    ensures OwnerPath(c.run) in st'.disk && st'.disk[OwnerPath(c.run)] == Owner(Alive)
    ensures SessionPath(c.run) in st'.disk
    ensures st'.disk[SessionPath(c.run)] == SessionFile(session.(body := Rebase(c.run, session.body, "")))
  {
    hide PlainPiece;
    LockedIsFree(c, st);
    DistinctPaths(c.run);
    hide Reached;
    hide Recorded;
    hide ToWrite;
    hide AfterLock;
    hide SessionPath;
    hide OwnerPath;
    hide Rebase;
    st' := StepReached(c, st);
    assert st'.pc == Writing(session);
    st' := StepReached(c, st');
  }

  /** Crashes between the write and the rename: some run has moved the paths any given number of times. */
  lemma {:induction false} ManyMovesReached(c: Recording, st: State, n: nat) returns (st': State)
    requires c.Good() && Initial(c, st) && st.attempt.update in c.updates && Free(c.run, st.disk) && n >= 1
    ensures Reached(c, st') && st'.attempt == st.attempt
    ensures OwnerPath(c.run) in st'.disk && st'.disk[OwnerPath(c.run)] == Owner(Alive)
    ensures SessionPath(c.run) in st'.disk
    ensures st'.disk[SessionPath(c.run)]
            == SessionFile(Session(c.s0.history + [c.hash], true, RebaseTimes(c.run, st.attempt.update, n)))
  {
    hide PlainPiece;
    hide Reached;
    hide SessionPath;
    hide OwnerPath;
    hide LockPath;
    hide RebaseTimes;
    var session := Session(c.s0.history + [c.hash], true, RebaseTimes(c.run, st.attempt.update, n - 1));
    if n == 1 {
      InitialReached(c, st);
      st' := LockReached(c, st);
    } else {
      st' := ManyMovesReached(c, st, n - 1);
      st' := RetryReached(c, st');
    }
    OnceMore(c.run, st.attempt.update, n);
    LockedWrites(c, st', session);
    hide AfterLock;
    hide BeginArchive;
    hide EndsWith;
    st' := WriteReached(c, st', session);
  }

  lemma OnceMore(run: Run, value: Json, n: nat)
    requires n >= 1
    ensures RebaseTimes(run, value, n) == Rebase(run, RebaseTimes(run, value, n - 1), "")
    ensures n == 1 ==> RebaseTimes(run, value, n - 1) == value
  {
  }

  /** The new result, or the session read back, is what a locked attempt goes on to write. */
  lemma LockedWrites(c: Recording, st: State, session: Session)
    requires c.Good() && SessionPath(c.run) in st.disk && session.terminal
    requires session.history == c.s0.history + [c.hash]
    requires || st.disk[SessionPath(c.run)] == SessionFile(session)
             || (st.disk[SessionPath(c.run)] == SessionFile(c.s0) && session.body == st.attempt.update)
    ensures AfterLock(c.run, c.hash, st.attempt, st.disk) == BeginArchive(c.run, st.disk, session)
  {
    hide PlainPiece;
    hide SessionPath;
    hide BeginArchive;
    assert EndsWith(session.history, c.hash);
  }

  /** A crash, the end of the process and a retry: the lock is held again and the session is as it was. */
  lemma RetryReached(c: Recording, st: State) returns (st': State)
    requires c.Good() && Reached(c, st) && st.attempt.update in c.updates && SessionPath(c.run) in st.disk
    requires OwnerPath(c.run) in st.disk && st.disk[OwnerPath(c.run)] == Owner(Alive)
    ensures Reached(c, st') && st'.pc == Locked && st'.attempt == st.attempt
    ensures OwnerPath(c.run) in st'.disk && st'.disk[OwnerPath(c.run)] == Owner(Alive)
    ensures SessionPath(c.run) in st'.disk && st'.disk[SessionPath(c.run)] == st.disk[SessionPath(c.run)]
  {
    hide PlainPiece;
    hide Reached;
    DistinctPaths(c.run);
    hide SessionPath;
    hide OwnerPath;
    hide LockPath;
    hide Step;
    var started := st.(disk := st.disk[OwnerPath(c.run) := Owner(Dead)], pc := Start);
    NextReached(c, st, started);
    st' := LockReached(c, started);
  }

  /** No run moves the paths of the recorded session more than once. */
  ghost predicate MovesOnce(c: Recording, update: Json) {
    forall st :: Reached(c, st) && HoldsResult(c, st.disk) ==>
                   st.disk[SessionPath(c.run)].session.body == Rebase(c.run, update, "")
  }

  /** The active session file is written, and not as it was before the recording. */
  ghost predicate HoldsResult(c: Recording, disk: Disk) {
    && SessionPath(c.run) in disk && disk[SessionPath(c.run)].SessionFile?
    && disk[SessionPath(c.run)].session != c.s0
  }

  lemma SettledMovesOnceInRuns(c: Recording, update: Json, st: State)
    requires c.Good() && c.updates == {update} && Settles(c.run, update, "")
    requires Reached(c, st) && HoldsResult(c, st.disk)
    ensures st.disk[SessionPath(c.run)].session.body == Rebase(c.run, update, "")
  {
    hide PlainPiece;
    hide Settles;
    hide Rebase;
    hide RebaseTimes;
    ReachedInv(c, st);
    hide Reached;
    hide SessionPath;
    var body := st.disk[SessionPath(c.run)].session.body;
    assert MovedBody(c, 1, body);
    var u, n: nat :| u in c.updates && 1 <= n && body == RebaseTimes(c.run, u, n);
    SettledMovesOnce(c.run, u, n);
  }

  lemma ManyMovesInRuns(c: Recording, update: Json, n: nat)
    requires c.Good() && c.updates == {update} && MovesOnce(c, update) && n >= 1
    ensures RebaseTimes(c.run, update, n) == Rebase(c.run, update, "")
  {
    hide PlainPiece;
    hide Rebase;
    hide RebaseTimes;
    DistinctPaths(c.run);
    hide SessionPath;
    var st := State(map[SessionPath(c.run) := SessionFile(c.s0)], Start, Attempt(update, []));
    assert Below(c.run.Active(), SessionPath(c.run));
    assert !Exists(st.disk, c.run.Archive());
    var st' := ManyMovesReached(c, st, n);
    hide Reached;
    assert |st'.disk[SessionPath(c.run)].session.history| > |c.s0.history|;
    assert HoldsResult(c, st'.disk);
  }

  /** When all attempts write the same, the paths are moved exactly once in every run, if and only if they settle. */
  lemma PathsMoveOnce(c: Recording, update: Json)
    requires c.Good() && c.updates == {update}
    ensures MovesOnce(c, update) <==> Settles(c.run, update, "")
  {
    hide PlainPiece;
    AnyTimesIsOnce(c.run, update);
    hide Rebase;
    hide RebaseTimes;
    hide Settles;
    hide Reached;
    hide HoldsResult;
    hide SessionPath;
    if Settles(c.run, update, "") {
      forall st | Reached(c, st) && HoldsResult(c, st.disk)
        ensures st.disk[SessionPath(c.run)].session.body == Rebase(c.run, update, "")
      {
        SettledMovesOnceInRuns(c, update, st);
      }
    }
    if MovesOnce(c, update) {
      forall n: nat | n >= 1
        ensures RebaseTimes(c.run, update, n) == Rebase(c.run, update, "")
      {
        ManyMovesInRuns(c, update, n);
      }
    }
  }

  /** A crash inside locking leaves a lock that no later attempt can take: ownerless, or with an empty owner file. */
  lemma CrashInLocking(c: Recording, st: State)
    requires c.Good() && Initial(c, st) && st.attempt.update in c.updates
    requires LockPath(c.run) !in st.disk && OwnerPath(c.run) !in st.disk
    ensures var made := Step(c.run, c.hash, st);
            var torn := Step(c.run, c.hash, made);
            && Behaviour(c, [st, made, made.(pc := Start)]) && !Free(c.run, made.disk)
            && Behaviour(c, [st, made, torn, torn.(pc := Start)]) && !Free(c.run, torn.disk)
  {
    hide PlainPiece;
    assert st == State(st.disk, Start, st.attempt);
    TakingSteps(c.run, c.hash, st.disk, st.attempt);
    DistinctPaths(c.run);
    hide LockPath;
    hide OwnerPath;
    hide Initial;
    hide Step;
  }

  /** Such a run: a session without history, and a crash once the lock folder is made. */
  lemma CrashExample() returns (c: Recording, trace: seq<State>)
    ensures c.Good() && Behaviour(c, trace) && |trace| == 3
    ensures trace[2].pc == Start && LockPath(c.run) in trace[2].disk && !Free(c.run, trace[2].disk)
  {
    var run := Run([Named("a")], Named("s"), Named("r"));
    LettersAreWhole();
    assert run.Plain();
    hide PlainPiece;
    c := Recording(run, Hash(0), Session([], false, Null), {Null});
    var st := State(map[SessionPath(run) := SessionFile(c.s0)], Start, Attempt(Null, []));
    DistinctPaths(run);
    var made := Step(run, c.hash, st);
    trace := [st, made, made.(pc := Start)];
    CrashInLocking(c, st);
  }

  // ------------------------------------------------------------ locks left over

  ghost predicate NoArchivedLock(run: Run, disk: Disk) {
    ArchivedLock(run) !in disk && ArchivedOwner(run) !in disk
  }

  /** Locks go in order: the archived ones before the completion record, the active ones before success. */
  ghost predicate LocksGo(run: Run, st: State) {
    && (CompletionPath(run) in st.disk && SessionPath(run) !in st.disk ==> NoArchivedLock(run, st.disk))
    && (st.pc.DroppingLock? || st.pc.RecoverLock? ==> ArchivedOwner(run) !in st.disk)
    && (st.pc.Completing? ==> NoArchivedLock(run, st.disk))
    && (st.pc.Releasing? || st.pc.ReleasingFolder? || st.pc.Done? ==> st.pc.ok ==> NoArchivedLock(run, st.disk))
    && (st.pc.ReleasingFolder? || (st.pc.Done? && st.pc.ok) ==> OwnerPath(run) !in st.disk)
    && (st.pc.Done? && st.pc.ok ==> LockPath(run) !in st.disk)
  }

  lemma LockedLetsLocksGo(c: Recording, st: State)
    requires c.Good() && Inv(c, st) && LocksGo(c.run, st) && st.pc.Locked?
    ensures LocksGo(c.run, st.(pc := AfterLock(c.run, c.hash, st.attempt, st.disk)))
  {
    hide PlainPiece;
    hide SessionPath;
    hide LockPath;
    hide OwnerPath;
    hide CompletionPath;
    hide ArchivedPath;
    hide ArchivedLock;
    hide ArchivedOwner;
    hide ToWrite;
  }

  lemma MoveLetsLocksGo(c: Recording, st: State)
    requires c.Good() && st.pc.Moving? && ActiveSide(c, st.disk, st.pc)
    ensures LocksGo(c.run, Relocate(c.run, st))
  {
    hide PlainPiece;
    var disk' := MoveStep(c.run, st);
    hide Relocate;
    hide CompletionPath;
  }

  predicate InArchive(pc: Pc) {
    pc.DroppingOwner? || pc.DroppingLock? || pc.Completing? || pc.RecoverOwner? || pc.RecoverLock?
  }

  lemma ArchiveStepLetsLocksGo(c: Recording, st: State)
    requires c.Good() && Inv(c, st) && LocksGo(c.run, st) && InArchive(st.pc)
    ensures LocksGo(c.run, Step(c.run, c.hash, st))
  {
    hide PlainPiece;
    hide SessionPath;
    hide LockPath;
    hide OwnerPath;
    hide CompletionPath;
    hide ArchivedPath;
    hide ArchivedLock;
    hide ArchivedOwner;
    hide Recorded;
    hide ToWrite;
    hide Rebase;
    hide AfterLock;
    hide Relocate;
    DistinctPaths(c.run);
  }

  lemma WritingLetsLocksGo(c: Recording, st: State)
    requires c.Good() && Inv(c, st) && LocksGo(c.run, st) && (st.pc.Writing? || st.pc.Rewriting?)
    ensures LocksGo(c.run, Step(c.run, c.hash, st))
  {
    hide PlainPiece;
    hide LockPath;
    hide OwnerPath;
    hide CompletionPath;
    hide ArchivedPath;
    hide ArchivedLock;
    hide ArchivedOwner;
    hide Recorded;
    hide ToWrite;
    hide Rebase;
    hide AfterLock;
    hide Relocate;
    DistinctPaths(c.run);
  }

  lemma ReleasingLetsLocksGo(c: Recording, st: State)
    requires c.Good() && Inv(c, st) && LocksGo(c.run, st) && (st.pc.Releasing? || st.pc.ReleasingFolder?)
    ensures LocksGo(c.run, Step(c.run, c.hash, st))
  {
    hide PlainPiece;
    hide SessionPath;
    hide LockPath;
    hide OwnerPath;
    hide CompletionPath;
    hide ArchivedPath;
    hide ArchivedLock;
    hide ArchivedOwner;
    hide Recorded;
    hide AfterLock;
    hide Relocate;
    DistinctPaths(c.run);
  }

  lemma StepLetsLocksGo(c: Recording, st: State)
    requires c.Good() && Inv(c, st) && LocksGo(c.run, st) && !st.pc.Done?
    ensures LocksGo(c.run, Step(c.run, c.hash, st))
  {
    hide PlainPiece;
    if st.pc.Moving? {
      MoveLetsLocksGo(c, st);
    } else if st.pc.Locked? {
      LockedLetsLocksGo(c, st);
    } else if InArchive(st.pc) {
      ArchiveStepLetsLocksGo(c, st);
    } else if st.pc.Writing? || st.pc.Rewriting? {
      WritingLetsLocksGo(c, st);
    } else if st.pc.Releasing? || st.pc.ReleasingFolder? {
      ReleasingLetsLocksGo(c, st);
    } else {
      LockingLetsLocksGo(c, st);
    }
  }

  lemma LockingLetsLocksGo(c: Recording, st: State)
    requires c.Good() && Inv(c, st) && LocksGo(c.run, st) && InLocking(st.pc)
    ensures LocksGo(c.run, Step(c.run, c.hash, st))
  {
    hide PlainPiece;
    DistinctPaths(c.run);
    assert Below(c.run.Active(), LockPath(c.run)) && Below(c.run.Active(), OwnerPath(c.run));
    assert Below(c.run.Archive(), ArchivedLock(c.run)) && Below(c.run.Archive(), ArchivedOwner(c.run));
    hide SessionPath;
    hide LockPath;
    hide OwnerPath;
    hide CompletionPath;
    hide ArchivedPath;
    hide ArchivedLock;
    hide ArchivedOwner;
    hide Inv;
    hide AfterLock;
    hide Relocate;
    hide Free;
  }

  lemma {:induction false} LocksGoHolds(c: Recording, trace: seq<State>, i: nat)
    requires c.Good() && Behaviour(c, trace) && i < |trace|
    ensures LocksGo(c.run, trace[i])
  {
    hide PlainPiece;
    hide Recorded;
    if i == 0 {
      assert SessionPath(c.run) in trace[0].disk;
    } else {
      LocksGoHolds(c, trace, i - 1);
      InvHolds(c, trace, i - 1);
      assert Next(c.run, c.hash, trace[i - 1], trace[i - 1 + 1]);
      hide Inv;
      hide LocksGo;
      hide Step;
      hide Later;
      if !trace[i - 1].pc.Done? && trace[i] == Step(c.run, c.hash, trace[i - 1]) {
        StepLetsLocksGo(c, trace[i - 1]);
      } else {
        RestartLetsLocksGo(c.run, trace[i - 1], trace[i]);
      }
    }
  }

  lemma RestartLetsLocksGo(run: Run, st: State, st': State)
    requires run.Plain() && LocksGo(run, st) && Later(run, st.disk, st'.disk) && st'.pc == Start
    ensures LocksGo(run, st')
  {
    hide PlainPiece;
    DistinctPaths(run);
    assert Below(run.Active(), OwnerPath(run));
    assert Below(run.Archive(), ArchivedLock(run)) && Below(run.Archive(), ArchivedOwner(run));
    hide SessionPath;
    hide OwnerPath;
    hide CompletionPath;
    hide ArchivedLock;
    hide ArchivedOwner;
  }

  /** A retry that succeeds leaves no lock of the run, neither active nor archived. */
  lemma SuccessLeavesNoLock(c: Recording, trace: seq<State>, i: nat)
    requires c.Good() && Behaviour(c, trace) && i < |trace|
    ensures var end := Finish(c.run, c.hash, trace[i]);
            end.pc == Done(true) ==>
              NoArchivedLock(c.run, end.disk) && LockPath(c.run) !in end.disk && OwnerPath(c.run) !in end.disk
  {
    hide PlainPiece;
    LocksGoHolds(c, trace, i);
    InvHolds(c, trace, i);
    FinishLetsLocksGo(c, trace[i]);
  }

  lemma {:induction false} FinishLetsLocksGo(c: Recording, st: State)
    requires c.Good() && Inv(c, st) && st.attempt.update in c.updates && LocksGo(c.run, st)
    ensures LocksGo(c.run, Finish(c.run, c.hash, st)) && Finish(c.run, c.hash, st).pc.Done?
    decreases Rank(c.run, st)
  {
    hide PlainPiece;
    if !st.pc.Done? {
      hide LocksGo;
      hide Inv;
      StepLowersRank(c.run, c.hash, st);
      StepLetsLocksGo(c, st);
      StepKeepsInv(c, st);
      FinishLetsLocksGo(c, Step(c.run, c.hash, st));
    }
  }

  // ------------------------------------------------- the slug `completed`

  /** Under the slug `completed` the archive lies inside the active directory, and the rename is refused. */
  ghost predicate StuckActive(run: Run, st: State) {
    && SessionPath(run) in st.disk
    && !st.pc.DroppingOwner? && !st.pc.DroppingLock? && !st.pc.Completing?
    && !st.pc.RecoverOwner? && !st.pc.RecoverLock?
  }

  lemma StuckStep(run: Run, hash: Hash, st: State)
    requires run.slug == Completed && StuckActive(run, st) && !st.pc.Done?
    ensures StuckActive(run, Step(run, hash, st))
  {
    assert run.Active() <= run.Archive();
    assert SessionPath(run)[|run.Active()|] == SessionJson && LockPath(run)[|run.Active()|] == LockFolder
           && OwnerPath(run)[|run.Active()|] == LockFolder;
  }

  /** So no run of that slug is ever archived: the active session file stays in every state. */
  lemma {:induction false} SlugCompletedIsNeverArchived(c: Recording, trace: seq<State>, i: nat)
    requires c.run.slug == Completed && Behaviour(c, trace) && i < |trace|
    ensures SessionPath(c.run) in trace[i].disk
  {
    StuckHolds(c, trace, i);
  }

  lemma {:induction false} StuckHolds(c: Recording, trace: seq<State>, i: nat)
    requires c.run.slug == Completed && Behaviour(c, trace) && i < |trace|
    ensures StuckActive(c.run, trace[i])
  {
    if i > 0 {
      StuckHolds(c, trace, i - 1);
      assert Next(c.run, c.hash, trace[i - 1], trace[i - 1 + 1]);
      if !trace[i - 1].pc.Done? {
        StuckStep(c.run, c.hash, trace[i - 1]);
      }
    }
  }

  // ------------------------------------------------- one attempt, in the code

  lemma FinishStep(run: Run, hash: Hash, st: State)
    requires !st.pc.Done?
    ensures Finish(run, hash, st) == Finish(run, hash, Step(run, hash, st))
  {
  }

  lemma FinishedStays(run: Run, hash: Hash, st: State)
    requires st.pc.Done?
    ensures Finish(run, hash, st) == st
  {
  }

  lemma FinishTaking(run: Run, hash: Hash, disk: Disk, attempt: Attempt)
    requires LockPath(run) !in disk
    ensures Finish(run, hash, State(disk, Start, attempt))
            == Finish(run, hash, State(
              disk[LockPath(run) := Folder][OwnerPath(run) := Owner(Torn)][OwnerPath(run) := Owner(Alive)],
              Locked, attempt))
  {
    TakingSteps(run, hash, disk, attempt);
    hide LockPath;
    hide OwnerPath;
    hide Step;
    var made := disk[LockPath(run) := Folder];
    FinishStep(run, hash, State(disk, Start, attempt));
    FinishStep(run, hash, State(made, LockMade, attempt));
    FinishStep(run, hash, State(made[OwnerPath(run) := Owner(Torn)], OwnerMade, attempt));
  }

  lemma FinishBreaking(run: Run, hash: Hash, disk: Disk, attempt: Attempt)
    requires LockPath(run) in disk && Free(run, disk)
    ensures Finish(run, hash, State(disk, Start, attempt))
            == Finish(run, hash, State(disk - {OwnerPath(run)} - {LockPath(run)}, Start, attempt))
  {
    BreakingSteps(run, hash, disk, attempt);
    hide LockPath;
    hide OwnerPath;
    hide Step;
    FinishStep(run, hash, State(disk, Start, attempt));
    FinishStep(run, hash, State(disk - {OwnerPath(run)}, Breaking, attempt));
  }

  lemma FinishRefused(run: Run, hash: Hash, disk: Disk, attempt: Attempt)
    requires !Free(run, disk)
    ensures Finish(run, hash, State(disk, Start, attempt)) == State(disk, Done(false), attempt)
  {
    hide OwnerPath;
    hide LockPath;
    FinishStep(run, hash, State(disk, Start, attempt));
    FinishedStays(run, hash, State(disk, Done(false), attempt));
  }

  lemma FinishMove(run: Run, hash: Hash, disk: Disk, attempt: Attempt)
    ensures var moved := Rename(disk, run.Active(), run.Archive()) - {ArchivedOwner(run)} - {ArchivedLock(run)};
            Finish(run, hash, State(disk, Moving, attempt))
            == if run.Active() <= run.Archive() then Finish(run, hash, State(disk, Releasing(false), attempt))
               else
                 Finish(run, hash, State(
                   moved[CompletionPath(run) := Completion(run.runId, hash, ArchivedPath(run))],
                   Releasing(true), attempt))
  {
    hide Finish;
    hide Rename;
    hide CompletionPath;
    hide ArchivedPath;
    hide ArchivedLock;
    hide ArchivedOwner;
    FinishStep(run, hash, State(disk, Moving, attempt));
    if !(run.Active() <= run.Archive()) {
      var renamed := Rename(disk, run.Active(), run.Archive());
      FinishStep(run, hash, State(renamed, DroppingOwner, attempt));
      FinishStep(run, hash, State(renamed - {ArchivedOwner(run)}, DroppingLock, attempt));
      FinishStep(run, hash, State(renamed - {ArchivedOwner(run)} - {ArchivedLock(run)}, Completing, attempt));
    }
  }

  /** The files as an attempt changes them, one after the other, when nothing interrupts it. */
  class RunFiles {
    var disk: Disk

    constructor (disk: Disk)
      ensures this.disk == disk
    {
      this.disk := disk;
    }

    /**
     `acquireSessionLock`: the lock of a process that no longer runs is broken
     first; an owner file that cannot be read, is invalid or names a running
     process refuses the attempt and changes nothing.
     */
    method AcquireLock(run: Run, hash: Hash, attempt: Attempt) returns (locked: bool)
      modifies this
      ensures locked == Free(run, old(disk)) && (!locked ==> disk == old(disk))
      ensures locked ==>
                Finish(run, hash, State(old(disk), Start, attempt)) == Finish(run, hash, State(disk, Locked, attempt))
      ensures !locked ==> Finish(run, hash, State(old(disk), Start, attempt)) == State(disk, Done(false), attempt)
      decreases if LockPath(run) in disk then 1 else 0
    {
      hide LockPath;
      hide OwnerPath;
      if LockPath(run) !in disk {
        FinishTaking(run, hash, disk, attempt);
        hide Finish;
        disk := disk[LockPath(run) := Folder];
        disk := disk[OwnerPath(run) := Owner(Torn)];
        disk := disk[OwnerPath(run) := Owner(Alive)];
        return true;
      }
      if OwnerPath(run) !in disk || !disk[OwnerPath(run)].Owner? || disk[OwnerPath(run)].state.Torn? {
        FinishRefused(run, hash, disk, attempt);
        return false;  // locked by an initializing process
      }
      if disk[OwnerPath(run)].state.Invalid? || disk[OwnerPath(run)].state.Alive? {
        FinishRefused(run, hash, disk, attempt);
        return false;
      }
      FinishBreaking(run, hash, disk, attempt);
      hide Finish;
      disk := disk - {OwnerPath(run)};
      disk := disk - {LockPath(run)};
      locked := AcquireLock(run, hash, attempt);
    }

    /** `archiveTerminalRun` */
    method ArchiveTerminalRun(run: Run, hash: Hash, session: Session, attempt: Attempt) returns (ok: bool)
      modifies this
      ensures Finish(run, hash, State(old(disk), BeginArchive(run, old(disk), session), attempt))
              == Finish(run, hash, State(disk, Releasing(ok), attempt))
    {
      hide Finish;
      hide Rename;
      hide Exists;
      hide Rebase;
      hide SessionPath;
      hide CompletionPath;
      hide ArchivedPath;
      hide ArchivedLock;
      hide ArchivedOwner;
      hide RewriteArtifact;
      if Exists(disk, run.Archive()) {
        return false;
      }
      FinishStep(run, hash, State(disk, Writing(session), attempt));
      disk := disk[SessionPath(run) := SessionFile(session.(body := Rebase(run, session.body, "")))];
      RewriteArtifacts(run, hash, attempt);
      FinishMove(run, hash, disk, attempt);
      hide Step;
      if run.Active() <= run.Archive() {
        return false;
      }
      disk := Rename(disk, run.Active(), run.Archive());
      disk := disk - {ArchivedOwner(run)};
      disk := disk - {ArchivedLock(run)};
      disk := disk[CompletionPath(run) := Completion(run.runId, hash, ArchivedPath(run))];
      return true;
    }

    /** `rebaseKnownRunJsonArtifacts` */
    method RewriteArtifacts(run: Run, hash: Hash, attempt: Attempt)
      modifies this
      ensures Finish(run, hash, State(old(disk), Rewriting(attempt.todo), attempt))
              == Finish(run, hash, State(disk, Moving, attempt))
    {
      hide Finish;
      hide RewriteArtifact;
      assert attempt.todo[0..] == attempt.todo;
      for k := 0 to |attempt.todo|
        invariant Finish(run, hash, State(old(disk), Rewriting(attempt.todo), attempt))
                  == Finish(run, hash, State(disk, Rewriting(attempt.todo[k..]), attempt))
      {
        FinishStep(run, hash, State(disk, Rewriting(attempt.todo[k..]), attempt));
        assert attempt.todo[k..][1..] == attempt.todo[k + 1..];
        disk := RewriteArtifact(run, disk, attempt.todo[k]);
      }
      assert attempt.todo[|attempt.todo|..] == [];
      FinishStep(run, hash, State(disk, Rewriting([]), attempt));
    }

    /** `recoverTerminalRetry` */
    method RecoverTerminalRetry(run: Run, hash: Hash, attempt: Attempt) returns (ok: bool)
      modifies this
      ensures Finish(run, hash, State(old(disk), Recover(run, hash, old(disk)), attempt))
              == Finish(run, hash, State(disk, Releasing(ok), attempt))
    {
      hide Finish;
      if CompletionPath(run) in disk && disk[CompletionPath(run)].Completion?
         && disk[CompletionPath(run)].runId == run.runId && disk[CompletionPath(run)].hash == hash {
        var target := disk[CompletionPath(run)].target;
        return target in disk && disk[target].SessionFile?;
      }
      if ArchivedPath(run) !in disk || !disk[ArchivedPath(run)].SessionFile?
         || !EndsWith(disk[ArchivedPath(run)].session.history, hash) {
        return false;
      }
      FinishStep(run, hash, State(disk, RecoverOwner, attempt));
      disk := disk - {ArchivedOwner(run)};
      FinishStep(run, hash, State(disk, RecoverLock, attempt));
      disk := disk - {ArchivedLock(run)};
      return true;
    }

    /** `recordCommand` for a terminal result: the files end as the file steps of one attempt end. */
    method RecordCommand(run: Run, hash: Hash, attempt: Attempt) returns (ok: bool)
      modifies this
      ensures Finish(run, hash, State(old(disk), Start, attempt)) == State(disk, Done(ok), attempt)
    {
      hide Recover;
      hide BeginArchive;
      hide Finish;
      hide EndsWith;
      var locked := AcquireLock(run, hash, attempt);
      if !locked {
        return false;
      }
      FinishStep(run, hash, State(disk, Locked, attempt));
      if SessionPath(run) !in disk {
        ok := RecoverTerminalRetry(run, hash, attempt);
      } else {
        match disk[SessionPath(run)]
        case SessionFile(session) =>
          if EndsWith(session.history, hash) {
            if session.terminal {
              ok := ArchiveTerminalRun(run, hash, session, attempt);
            } else {
              ok := true;
            }
          } else {
            var updated := Session(session.history + [hash], true, attempt.update);
            ok := ArchiveTerminalRun(run, hash, updated, attempt);
          }
        case _ => ok := false;
      }
      FinishStep(run, hash, State(disk, Releasing(ok), attempt));
      disk := disk - {OwnerPath(run)};
      FinishStep(run, hash, State(disk, ReleasingFolder(ok), attempt));
      disk := disk - {LockPath(run)};
      FinishedStays(run, hash, State(disk, Done(ok), attempt));
    }
  }
}

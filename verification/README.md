# Verified model of the delivery tooling

This project models the algorithmic and stateful parts of a set of delivery and design-review scripts, and proves what
they are relied on for. Every module follows one piece of the program:

| module | piece |
|---|---|
| `CycleSearch`, `AncestorChains`, `PopupOwnership` | ownership of popups, cycles among owners, memo tables over looping parent links, and the extension of focus |
| `Visibility` | clip and opacity states of a snapshot, filled along parent walks |
| `FrozenPath` | element paths printed from a snapshot and resolved against the live tree |
| `CaptureWindow` | the critical windows of a capture, with asynchronous handlers and the main sequence |
| `PathRebase`, `TerminalArchive` | recording and archiving the terminal result of a run, under crashes |
| `BugBody`, `IdAllocator` | the canonical bug body, and backlog ids |
| `ConfigEdits` | batch edits of the configuration tree |
| `MarkupScanner` | the quote-aware scanner of artifact markup |
| `TelemetryLedger` | the bounded timing ledger |
| `Findings`, `AuditNormalize` | normalised audits and their findings |
| `ShadowReport` | medians and the threshold of the shadow report |
| `BaseDrift` | changed paths and base drift |
| `Wrappers`, `Texts`, `Lists`, `Sorting` | shared datatypes, text functions, lists up to order, and sorting |

Loops and objects of the program are methods and classes here, each proved against functions of the specification;
what the program promises is proved about those functions. Processes that can be interrupted are state machines over
their steps. `dafny verify dfyconfig.toml` checks the whole project.

Some promises fail on some inputs. Each has its exact condition and an input here:

- Run paths are moved once, however often a recording is retried: exactly for bodies that settle
  (`TerminalArchive.PathsMoveOnce`, `PathRebase.RebaseTwice`; `PathRebase.ClimbingExample`).
- A retry after a crash archives the run: exactly when the lock is free (`TerminalArchive.UncrashedRetry`;
  `TerminalArchive.CrashInLocking`, `TerminalArchive.CrashExample`).
- Bug texts read back: exactly the canonical ones (`BugBody.ReadsBackExactly`; `BugBody.OpenFenceExample`).
- A parsed id prints as it was: exactly without superfluous zeros (`IdAllocator.FormatOfParse`;
  `IdAllocator.NeedlessZeroExample`).
- A frozen path resolves: exactly when the live names are the snapshot's (`FrozenPath.ResolvesToItself`;
  `FrozenPath.PrefixedNameExample`).

What an emitted capture says about network violations has a limit, too: at its last check none was 500 ms old
(`CaptureWindow.EmittedRunsAreClean`), and later ones are not looked at (`CaptureWindow.LateViolationEmits`).

## Model

| member | source | states |
|---|---|---|
| `CycleSearch.MarkCyclic` | scripts/design-critique-capture-probe.js:1002-1029 | Over any finite closed graph the search ends and the marked ids are exactly those from which a walk reaches a repeated id (`MarksExactly`). |
| `CycleSearch.Explore` | scripts/design-critique-capture-probe.js:1007-1028 | One root with its explicit stack: terminates, finishes the root and everything reached, and keeps marked and unmarked finished ids settled. |
| `CycleSearch.UnmarkedAreClosed` | scripts/design-critique-capture-probe.js:1011-1027 | Finished ids that are not marked are closed under successors. |
| `CycleSearch.SafeIdsReachNoCycle` | scripts/design-critique-capture-probe.js:1019-1027 | No walk from a finished unmarked id ever repeats an id. |
| `CycleSearch.BackEdge` | scripts/design-critique-capture-probe.js:1014 | An edge back into the stack, or to a marked id, means that the top of the stack reaches a cycle. |
| `AncestorChains.AncestorTable.Nearest` | scripts/design-critique-capture-probe.js:937-985 | A memoised lookup answers as the plain walk of the same links, and leaves the table right, whatever was looked up before and even when parent links loop. |
| `AncestorChains.FirstStopIsNearest` | scripts/design-critique-capture-probe.js:943-958 | The walk with a seen set finds the nearest stop in the declarative sense: the k-th ancestor is a stop and no nearer one is; none exactly when no ancestor is. |
| `AncestorChains.NearestStopUnfolds` | scripts/design-critique-capture-probe.js:957 | The nearest stop is decided by the node itself or else by its parent. |
| `PopupOwnership.ExtendOwnedPopupFocus` | scripts/design-critique-capture-probe.js:903-1069 | The whole call: exact owners, exactly the cyclic popups marked, the least closed focus set, and for exactly the unambiguous unmarked popups the modal of the plain owner chain. |
| `PopupOwnership.CollectOwners` | scripts/design-critique-capture-probe.js:903-935 | A popup is owned by a node exactly when that node alone claims it; it is ambiguous exactly when two different nodes do. |
| `PopupOwnership.BuildGraph` | scripts/design-critique-capture-probe.js:986-1001 | The searched graph has, for each owned popup, the owned popup above its owner and the one above itself, each once, though it is read through the memo table. |
| `PopupOwnership.OwnerLinkIsEdge` | scripts/design-critique-capture-probe.js:989-998 | Every step that the modal loop takes along owners is an edge of the searched graph. |
| `PopupOwnership.FollowOwners` | scripts/design-critique-capture-probe.js:1055-1065 | The owner walk of one popup ends, because a revisit would make an unmarked popup reach a cycle; every popup of the path has the answer returned. |
| `PopupOwnership.PopupModals` | scripts/design-critique-capture-probe.js:1053-1068 | Exactly the unambiguous unmarked popups get an entry, and it is the first modal along the owner chain walked without any table. |
| `PopupOwnership.AddOwnerChain` | scripts/design-critique-capture-probe.js:1041-1049 | Adds precisely what closure demands from one owner upwards, up to a modal or a node already focused. |
| `PopupOwnership.ExtendFocus` | scripts/design-critique-capture-probe.js:1031-1050 | The extended focus is closed under passing focus to owners and upwards to modals, and contained in every set so closed. |
| `Visibility.Evaluator.EnsureState` | scripts/design-critique-capture-probe.js:1619-1644 | Fills the entry asked for and those of unfilled ancestors on the way; never changes an entry; every entry extends its parent's, or the root state where links leave the model or loop. |
| `Visibility.Evaluator.constructor` | scripts/design-critique-capture-probe.js:1556-1646 | After evaluating every index, each has an entry, and the generation number is at most the number of nodes. |
| `Visibility.TableIsTopDown` | scripts/design-critique-capture-probe.js:1619-1646 | In whatever order such a table was filled, on every node whose parent walk leaves the model the entry is the top-down fold along the ancestors. |
| `Visibility.TopDownUnfolds` | scripts/design-critique-capture-probe.js:1571-1617 | The folded state of a node is its parent's state extended by the node; above the model it is the root state. |
| `Visibility.ParentsFirstIsForest` | scripts/design-critique-capture-probe.js:1624-1634 | A snapshot that lists parents before children is a forest, so the fold is defined on all its nodes. |
| `Visibility.GroundedIsOffLoop` | scripts/design-critique-capture-probe.js:1624-1634 | A node whose parent walk leaves the model is not on a parent loop. |
| `Visibility.ExtendedDescends` | scripts/design-critique-capture-probe.js:1571-1617 | Going down, clip rectangles nest and respect the node's own clips, opacity stays in [0, 1] and does not grow, and blocking is inherited. |
| `Visibility.NarrowedIsLargest` | scripts/design-critique-capture-probe.js:1580-1599 | The narrowed clip is the largest rectangle inside the parent's clip and all clips of the node: a rectangle fits it if and only if it fits them all. |
| `Visibility.ExtendedKeeps` | scripts/design-critique-capture-probe.js:1601-1609 | A non-empty rectangle that the parent's clip and the node let through leaves the child unblocked and inside its clip. |
| `Visibility.FilterOpacity` | scripts/design-critique-capture-probe.js:1338-1348 | The filter factors multiply, and the product is clamped to [0, 1] once at the end. |
| `Visibility.Extend` | scripts/design-critique-capture-probe.js:1571-1617 | The step with its reassigned edges yields the extended state of the specification. |
| `Visibility.FoldSeesWholeChain` | scripts/design-critique-capture-probe.js:1571-1644 | The folded clip lies in the viewport and in every clip of the chain, an unblocked state has no hiding node above it, and the opacity is the product along the chain. |
| `Visibility.ShownIsVisible` | scripts/design-critique-capture-probe.js:1648-1666 | A returned rectangle is non-empty and lies in the node's bounds, the viewport and every applied clip; nothing above hides it; its opacity is the chain's product and reaches the floor. |
| `Visibility.ShownIsLargest` | scripts/design-critique-capture-probe.js:1648-1666 | Conversely any rectangle that the whole chain lets through lies in the returned one, which then exists. |
| `Visibility.Evaluator.Intersection` | scripts/design-critique-capture-probe.js:1648-1666 | The answer for an index is computed from its entry alone and is none outside the model. |
| `FrozenPath.ElementPaths.PathOf` | scripts/design-critique-capture-probe.js:624-632 | A path exists if and only if 1 to 512 element-only ancestors, the node included, lead to a document, and it is then the steps from the document down. |
| `FrozenPath.ElementPaths.constructor` | scripts/design-critique-capture-probe.js:615-623 | Every element gets its position among the elements with the same parent, in snapshot order. |
| `FrozenPath.PositionFinds` | scripts/design-critique-capture-probe.js:618-623 | The position finds the element again among its parent's element children. |
| `FrozenPath.PathsAreDistinct` | scripts/design-critique-capture-probe.js:624-632 | Two nodes with equal paths are the same node; names need not differ. |
| `FrozenPath.DepthIsUnique` | scripts/design-critique-capture-probe.js:624-632 | At most one number of elements leads from a node to a document. |
| `FrozenPath.Resolve` | scripts/design-critique-capture-probe.js:3232-3252 | The resolver's loop, stopping at the first step that finds no element of the name. |
| `FrozenPath.ResolvesToItself` | scripts/design-critique-capture-probe.js:3232-3252 | On the same tree a frozen path resolves to its own node if and only if the live names along it are the snapshot's; otherwise it resolves to nothing. |
| `FrozenPath.PrefixedNameExample` | scripts/design-critique-capture-probe.js:3232-3252 | An element with a prefixed node name, whose live local name has no prefix: its path does not resolve. |
| `CaptureWindow.EmittedRunsAreQuiet` | scripts/design-critique-capture-probe.js:5124-5486 | In every interleaving, a run that emits a result saw no network, navigation, DOM or stylesheet event while a window was open; the pending set was the frozen one throughout, and in the capture window it is the set reported. |
| `CaptureWindow.DriftIsExact` | scripts/design-critique-capture-probe.js:4616-4660 | At every moment the drift flag is set if and only if such an event occurred while a window was open. |
| `CaptureWindow.DriftIsSticky` | scripts/design-critique-capture-probe.js:4619-4659 | A drift, once set, is set at the end. |
| `CaptureWindow.InvHolds` | scripts/design-critique-capture-probe.js:5124-5486 | The window flag follows the main sequence, and while no drift is seen the pending set is the frozen one. |
| `CaptureWindow.PendingChangesAreNoted` | scripts/design-critique-capture-probe.js:4661-4924 | Whatever event changes the pending set has noted network activity; drift is set exactly by the listed events inside a window, and the epoch counts exactly the noted ones. |
| `CaptureWindow.VisitsEveryStage` | scripts/design-critique-capture-probe.js:5381-5560 | No stage of the capture is skipped: an emitting run has stood at each of the five samples and at each check after them. |
| `CaptureWindow.UndisturbedRunEmits` | scripts/design-critique-capture-probe.js:5381-5560 | Nothing else is demanded: on a healthy, idle, settled page whose data checks pass, the onward turns emit, with the pending set reported. |
| `CaptureWindow.CapturedStays` | scripts/design-critique-capture-probe.js:5381-5384 | The reported pending set no longer changes once the capture window has opened. |
| `CaptureWindow.EmittedRunsAreClean` | scripts/design-critique-capture-probe.js:4633-4639 | An emitting run was clean at its last network check, after the capture window: up to there no handler failed, at most 2000 requests were retained, and every violation was less than 500 ms old. |
| `CaptureWindow.LateViolationEmits` | scripts/design-critique-capture-probe.js:5533-5544 | After that check nothing is checked any more: a request blocked then is stored as a violation, and the run emits all the same. |
| `CaptureWindow.PageMonitor.Handle` | scripts/design-critique-capture-probe.js:4616-4929 | Every handler, in place: inside a window a network, navigation, DOM or stylesheet event leaves a drift behind, and while none is set the pending requests stay what they were. |
| `CaptureWindow.PageMonitor.OnRequestSent` | scripts/design-critique-capture-probe.js:4692-4739 | The handler of a sent request, with retention, the first violation, bootstrap replays and tracked requests. |
| `CaptureWindow.PageMonitor.OnSocketCreated` | scripts/design-critique-capture-probe.js:4759-4780 | The handler of a new socket: blocked ones are violations, the others pending. |
| `CaptureWindow.PageMonitor.OnTargetDetached` | scripts/design-critique-capture-probe.js:4903-4929 | A detached target takes its pending requests and sockets with it, after noting activity. |
| `CaptureWindow.Probe.Turn` | scripts/design-critique-capture-probe.js:5100-5560 | The main sequence from one await to the next, in place, makes the turn that the protocol makes. |
| `CaptureWindow.Probe.Play` | scripts/design-critique-capture-probe.js:5100-5560 | A whole run in place, handlers and turns as they come: if it emits, no event has disturbed a window. |
| `PathRebase.RebaseTwice` | scripts/dev-session.js:598-626 | Rewriting a JSON value twice is rewriting it once, if and only if no string below a run path field climbs out of the run directory and back along its last names (`Settles`). |
| `PathRebase.MoveTextTwice` | scripts/dev-session.js:607-624 | The same for one string, by the two rules of the code. |
| `PathRebase.MovedPieces` | scripts/dev-session.js:607-613 | A moved path is the archive's first pieces followed by what the resolved value no longer shares with the run directory. |
| `PathRebase.WithoutDotsSettles` | scripts/dev-session.js:607-613 | A path without `..` always settles. |
| `PathRebase.ClimbingExample` | scripts/dev-session.js:607-613 | A concrete path for which a second rewriting does move it again. |
| `PathRebase.AnyTimesIsOnce` | scripts/dev-session.js:598-626 | Any number of rewritings of a JSON value is one rewriting, if and only if the value settles. |
| `TerminalArchive.OneSessionFile` | scripts/dev-session.js:378-460 | After any crashes and retries exactly one of the active and the archived session file exists, and the result is in the history at most once, exactly once in the archived one, with the body of some attempt and its paths moved at least once. |
| `TerminalArchive.InvHolds` | scripts/dev-session.js:378-538 | Every state of every behaviour is on the active or on the archived side of the rename. |
| `TerminalArchive.MoveArchives` | scripts/dev-session.js:489-491 | The rename carries the recorded session into the archive and leaves no session or completion record behind. |
| `TerminalArchive.WriteKeepsActive` | scripts/dev-session.js:477-482 | Writing the rebased session, also one read back after a crash, leaves the session as recorded, its paths moved once more. |
| `TerminalArchive.PathsMoveOnce` | scripts/dev-session.js:472-482 | When all attempts record the same body, no run of crashes and retries ever moves its paths more than once, if and only if the body settles. |
| `TerminalArchive.ManyMovesReached` | scripts/dev-session.js:472-482 | Crashes between the write and the rename do reach a session whose paths were moved any given number of times. |
| `TerminalArchive.UncrashedRetry` | scripts/dev-session.js:378-538 | An uncrashed retry from any reachable disk ends with the session archived under the result's hash if and only if there is no lock folder, or its owner file is whole and names a process that no longer runs; else it fails and changes nothing. |
| `TerminalArchive.CrashInLocking` | scripts/dev-session.js:637-644 | A crash after the lock folder is made, and one after its owner file is created and before it is filled, each leave a lock that no later attempt can take. |
| `TerminalArchive.CrashExample` | scripts/dev-session.js:637-644 | Such a run exists: a session without history, and a crash once the lock folder is made. |
| `TerminalArchive.SuccessLeavesNoLock` | scripts/dev-session.js:491-537 | A retry that succeeds leaves no lock of the run behind, neither in the active directory nor in the archive. |
| `TerminalArchive.OutsideUntouched` | scripts/dev-session.js:472-506 | No file outside the two directories of the run is created, changed or removed. |
| `TerminalArchive.ArtifactsKept` | scripts/dev-session.js:483-491 | No artifact of the run is lost: it is in place before the rename and at the same place in the archive afterwards. |
| `TerminalArchive.SlugCompletedIsNeverArchived` | scripts/dev-session.js:472-490 | Under the slug `completed` the archive would lie inside the run directory, and no run is ever archived. |
| `TerminalArchive.RunFiles.RecordCommand` | scripts/dev-session.js:378-460 | The command, file operation by file operation, ends in the state in which the file steps of one attempt end. |
| `TerminalArchive.RunFiles.ArchiveTerminalRun` | scripts/dev-session.js:472-506 | Archiving, from the existence check to the completion record, runs through the file steps of the model. |
| `TerminalArchive.RunFiles.RecoverTerminalRetry` | scripts/dev-session.js:508-538 | Recovery by completion record or by archive runs through the file steps of the model. |
| `TerminalArchive.RunFiles.AcquireLock` | scripts/dev-session.js:633-673 | Takes the lock exactly when it is free, breaking that of a dead process first; an owner file that is missing, unreadable or invalid, or names a running process, refuses and changes nothing. |
| `BugBody.NormalizeBugBody` | scripts/capture-backlog.js:337-371 | The line scan with its fence state, and the printing, yield the normal form of the specification. |
| `BugBody.ReadsBack` | scripts/capture-backlog.js:337-371 | Canonical section texts survive printing and parsing unchanged. |
| `BugBody.ReadsBackExactly` | scripts/capture-backlog.js:337-371 | Printing and parsing is the identity on exactly the canonical texts, with no other condition: non-empty and trimmed, without a carriage return before a line feed, without a recognised heading outside a fence, and with no fence left open except by the last. |
| `BugBody.NormalizedIsFixed` | scripts/capture-backlog.js:337-371 | Normalising the normal form of any body finds the same section texts if and only if they are canonical, and then nothing changes. |
| `BugBody.CanonicalBodiesAreFixed` | scripts/capture-backlog.js:337-371 | For a body without carriage returns whose scan ends outside a fence and whose sections start at the margin, the section texts are canonical and the normal form is a fixed point, which the check of a stored body needs. |
| `BugBody.AccidentalFixedPoint` | scripts/capture-backlog.js:337-371 | A body whose section texts are not canonical and whose normal form is a fixed point all the same. |
| `BugBody.OpenFenceExample` | scripts/capture-backlog.js:344-354 | Three backticks alone are a self-contained section text that leaves its fence open. |
| `BugBody.OpenFenceSwallows` | scripts/capture-backlog.js:345-350 | A section text that leaves a fence open swallows the next header and does not read back. |
| `IdAllocator.ParseOfFormat` | scripts/capture-backlog.js:288-297 | Parsing a printed id gives the number back, for exactly the numbers 1 to 999999. |
| `IdAllocator.FormatOfParse` | scripts/capture-backlog.js:288-297 | Printing a parsed id gives the text back if and only if it has three digits or no leading zero. |
| `IdAllocator.NeedlessZeroExample` | scripts/capture-backlog.js:288-297 | The id PM-0001 is read as 1, which prints as PM-001. |
| `IdAllocator.ReadBacklogSnapshot` | scripts/capture-backlog.js:444-468 | The loop over the directory, refusing large, malformed and repeated entries. |
| `IdAllocator.SnapshotKnows` | scripts/capture-backlog.js:450-466 | The snapshot holds every id and file name of the directory; its maximum bounds all numbers and is one of them, or zero. |
| `IdAllocator.NextIsFresh` | scripts/capture-backlog.js:149-154 | The next id is in no file, so the duplicate check after allocation never fires. |
| `IdAllocator.Backlog.CreateRecord` | scripts/capture-backlog.js:122-168 | A create refuses with the directory unchanged, or adds exactly one file, under the next id; a file that fails validation stays and is reported. |
| `IdAllocator.CreateRaisesMax` | scripts/capture-backlog.js:149-165 | A successful create takes the maximum plus one and leaves the backlog readable with that maximum. |
| `IdAllocator.RunsAllocateInOrder` | scripts/capture-backlog.js:122-168 | Over any run of successful creates the k-th id carries the old maximum plus k, earlier files stay as they were, and each create adds only its own file. |
| `IdAllocator.IdsNeverRepeat` | scripts/capture-backlog.js:122-168 | Every number that stands before the k-th new file is smaller than its own. |
| `IdAllocator.SuccessesIncrease` | scripts/capture-backlog.js:122-168 | Over any attempts on any directory, refused ones and records published invalid included, each success takes a number above those of all files there, so successes increase. |
| `ConfigEdits.NormalizeChanges` | scripts/config-effect.js:85-130 | Accepts exactly batches of 1 to 16 sound changes of which no path is a prefix of another, and returns them. |
| `ConfigEdits.Config.SetValue` | scripts/config-effect.js:60-74 | The walk with its moving reference sets the value, opening missing parents, or fails at the first parent that is no object, with the tree unchanged. |
| `ConfigEdits.Config.DeleteValue` | scripts/config-effect.js:76-83 | The walk deletes the entry, or changes nothing when a parent is missing. |
| `ConfigEdits.Config.ApplyChanges` | scripts/config-effect.js:220-223 | Applies a batch in place, change by change, up to the first failure. |
| `ConfigEdits.EditsCommute` | scripts/config-effect.js:60-83 | Two edits at incomparable paths give the same tree in either order, or fail in both. |
| `ConfigEdits.OrderDoesNotMatter` | scripts/config-effect.js:117-128 | All orders of a prefix-free batch give the same tree, or all fail. |
| `ConfigEdits.FailsWhenBlocked` | scripts/config-effect.js:62-70 | An edit fails if and only if it is a set and some proper parent exists in the starting tree and is no object. |
| `ConfigEdits.BatchFailsWhenBlocked` | scripts/config-effect.js:220-223 | A prefix-free batch fails if and only if one of its changes is blocked in the starting tree. |
| `ConfigEdits.BatchTakesEffect` | scripts/config-effect.js:132-136 | After a successful batch every change matches. |
| `ConfigEdits.BatchLeaves` | scripts/config-effect.js:49-83 | Every path incomparable with all edited paths keeps its value. |
| `ConfigEdits.ReapplyingIsIdle` | scripts/config-effect.js:217-224 | Re-applying a batch to its own result changes nothing. |
| `ConfigEdits.ConfigFile.Mutate` | scripts/config-effect.js:202-225 | Writes only if the file is what it was when the effect was planned; what is written is observed as verified; nothing else changes it. |
| `MarkupScanner.StructuralMarkup` | scripts/artifact-check.js:371-400 | The output is the kept text of the chunks of the source. |
| `MarkupScanner.RawElementBodies` | scripts/artifact-check.js:444-470 | The result is exactly the dropped bodies of closed elements of the name, in order, over the same chunks. |
| `MarkupScanner.ChunksCoverSource` | scripts/artifact-check.js:371-470 | Kept text, comments, raw bodies and the unclosed rest, in order, are the source: nothing is lost, doubled or moved. |
| `MarkupScanner.FindClosingTag` | scripts/artifact-check.js:472-482 | Jumping by the needle length still finds the leftmost matching end tag. |
| `MarkupScanner.ClosingTagIsLeftmost` | scripts/artifact-check.js:472-482 | The end tag found is the leftmost of its name, and none is found exactly when none is left. |
| `MarkupScanner.NothingInsideNeedle` | scripts/artifact-check.js:479 | No end tag of the name starts inside an occurrence of the needle. |
| `MarkupScanner.CloseIsFirst` | scripts/artifact-check.js:426-440 | The tag closes at the first `>` outside quotes, if there is one. |
| `MarkupScanner.ReadStartTagAt` | scripts/artifact-check.js:418-442 | The reader of start tags, with its quote state. |
| `MarkupScanner.ReadEndTagAt` | scripts/artifact-check.js:484-502 | The reader of end tags, with its quote state. |
| `MarkupScanner.StartTagIsItsSlice` | scripts/artifact-check.js:418-442 | Exactly when a start tag is readable; it is then its slice of the source and ends at the first `>` outside quotes after its name. |
| `MarkupScanner.StartTags` | scripts/artifact-check.js:402-416 | The walk returns the start tags of its marks, in order. |
| `MarkupScanner.TagsIncrease` | scripts/artifact-check.js:402-416 | The spans are disjoint and strictly increasing. |
| `MarkupScanner.ReturnedUnlessCovered` | scripts/artifact-check.js:402-416 | A readable start tag is returned if and only if it does not begin inside a start tag or an accepted end tag already passed. |
| `MarkupScanner.MarksTile` | scripts/artifact-check.js:402-416 | The marks tile the source, so the walk ends and reads every position once. |
| `TelemetryLedger.EveryRunIsFaithful` | scripts/delivery-telemetry.js:86-187 | After any run: the events are the last min(512, n) of the n closed ones, each under its own number; begun is open plus closed, with unique open tokens, at most 64; dropped certifications are exact and dropped milliseconds within 0.0005 per compaction. |
| `TelemetryLedger.TotalsAreConserved` | scripts/delivery-telemetry.js:210-236 | Ledger plus totals account for all certifications exactly, and for all milliseconds within 0.0005 per compaction. |
| `TelemetryLedger.RoundIsNear` | scripts/delivery-telemetry.js:234-236 | Rounding moves a value by at most half a thousandth. |
| `TelemetryLedger.ChangeKeepsSegments` | scripts/delivery-telemetry.js:109-187 | Every operation keeps begun equal to open plus closed, as multisets, with unique tokens. |
| `TelemetryLedger.CompactKeepsWindow` | scripts/delivery-telemetry.js:210-228 | Compaction leaves the end of the log, renumbered by place in the log. |
| `TelemetryLedger.CompactKeepsTotals` | scripts/delivery-telemetry.js:213-224 | Compaction moves exactly what it drops into the totals, up to one rounding. |
| `TelemetryLedger.Ledger.Compact` | scripts/delivery-telemetry.js:210-228 | The in-place splice, sums and renumbering give the compacted ledger. |
| `TelemetryLedger.LedgerFile.BeginSegment` | scripts/delivery-telemetry.js:109-139 | Adds the segment, or fails on a bad identifier, a used token or 64 open segments, with the file unchanged. |
| `TelemetryLedger.LedgerFile.FinishSegment` | scripts/delivery-telemetry.js:141-162 | Closes the segment of that token and process, or fails on none or on a clock that moved backwards, with the file unchanged. |
| `TelemetryLedger.LedgerFile.RecoverInterrupted` | scripts/delivery-telemetry.js:164-187 | Closes the segments of dead processes in token order and keeps the others. |
| `AuditNormalize.AuditForgetsOrder` | scripts/design-critique-audit-normalize.js:80-317 | A normalised accessibility audit, checks and sorted findings and refusal alike, depends only on the multisets of observations. |
| `AuditNormalize.DomAuditForgetsOrder` | scripts/design-critique-audit-normalize.js:319-364 | The same for DOM audits; ties between kinds come out in the fixed order of the kinds. |
| `AuditNormalize.LandmarkCheckMeans` | scripts/design-critique-audit-normalize.js:185-281 | The landmark check passes if and only if there is one main landmark, or none while one named modal or one popup scope holds the focus, and every repeated role has non-empty pairwise distinct normalised names. |
| `AuditNormalize.NamesCheckMeans` | scripts/design-critique-audit-normalize.js:226-288 | The names check passes if and only if every dialog, popup and control is named as required. |
| `AuditNormalize.FocusCheckMeans` | scripts/design-critique-audit-normalize.js:290-308 | The focus check passes if and only if every enabled control outside a composite has tab index 0. |
| `AuditNormalize.RepeatedLandmarks` | scripts/design-critique-audit-normalize.js:244-281 | The grouping by role and by name finds, as a multiset, what each landmark contributes on its own. |
| `AuditNormalize.LandmarkIsQuiet` | scripts/design-critique-audit-normalize.js:249-281 | A landmark contributes nothing exactly when no other of its role shares its name, and it is named if there is another. |
| `AuditNormalize.CheckIndexes` | scripts/design-critique-audit-normalize.js:179-184 | The loop with its set of seen document indexes accepts exactly the lists in which no index occurs twice. |
| `AuditNormalize.CheckObservations` | scripts/design-critique-audit-normalize.js:80-184 | The checks in their order accept exactly the observations of bounded size, with valid items and unique indexes. |
| `AuditNormalize.NormalizeAccessibility` | scripts/design-critique-audit-normalize.js:80-317 | Refuses exactly the unacceptable observations; the findings are, as a multiset, those of the items, and each check passes when no finding is of it. |
| `AuditNormalize.AuditAccessibility` | scripts/design-critique-audit-normalize.js:76 | The findings come out sorted by code, locator and detail. |
| `AuditNormalize.AuditDom` | scripts/design-critique-audit-normalize.js:319-364 | Refuses exactly the unacceptable observations; findings kind by kind, then sorted. |
| `Findings.SortedFindingsAgree` | scripts/design-critique-audit-normalize.js:410-416 | Two lists of the same findings, ties in the order of their checks, sort to the same list. |
| `Findings.SortGivesFullOrder` | scripts/design-critique-audit-normalize.js:76 | The sort by key is stable, so ties stay in the order of their checks. |
| `ShadowReport.ReportForgetsOrder` | scripts/delivery-shadow-report.js:48-108 | Any order of the same deliveries gives the same report, or none. |
| `ShadowReport.MedianHalves` | scripts/delivery-shadow-report.js:7-12 | At least half of the values lie on each side of the median, which exists exactly for a non-empty list. |
| `ShadowReport.RowsCountTwice` | scripts/delivery-shadow-report.js:59-69 | The group counts sum to twice the eligible deliveries. |
| `ShadowReport.ThresholdMeans` | scripts/delivery-shadow-report.js:76-105 | The threshold passes if and only if at least 20 are eligible, the actual median is positive and the proposed median at most half of it. |
| `ShadowReport.BuildShadowReport` | scripts/delivery-shadow-report.js:48-108 | The loops over ids and groups build the report, or none for an invalid or repeated eligible delivery. |
| `ShadowReport.UniqueByCount` | scripts/delivery-shadow-report.js:54-58 | Ids are unique exactly when none is met twice, which is why the order of deliveries cannot matter. |
| `BaseDrift.ParserAcceptsExactly` | scripts/base-drift.js:87-101 | The parser accepts exactly the streams printed from valid one-path and rename or copy two-path records, and printing what it read gives the stream back. |
| `BaseDrift.PrintedIsRead` | scripts/base-drift.js:87-101 | Every valid list of records is read back from its stream. |
| `BaseDrift.ReadPaths` | scripts/base-drift.js:90-100 | The index loop pushes exactly the paths of the records, or fails where no records can be read. |
| `BaseDrift.ChangedPaths` | scripts/base-drift.js:69-102 | The sorted set of the paths of a stream, or none for a malformed one. |
| `BaseDrift.PathsAreMentioned` | scripts/base-drift.js:101 | The list is ordered and holds exactly the paths mentioned, rename sources included. |
| `BaseDrift.SurvivesIfDisjoint` | scripts/base-drift.js:17-48 | A review survives if and only if the evidence is authenticated, well-formed and disjoint; merge readiness implies survival. |
| `BaseDrift.GitReviewSurvives` | scripts/base-drift.js:104-131 | Through the Git route a review survives if and only if the two lists of records share no path. |

## Left out

- `PopupOwnership`: accessibility nodes have unique ids, as the protocol promises; two nodes of one id are not modelled. Roles and properties arrive parsed.
- `Visibility`: parsing of style texts, mask images and fonts; the style facts they yield are inputs. Amounts are exact reals. On nodes below a parent loop only what `EnsureState` promises is stated, since the value there depends on the evaluation order.
- `Visibility.Evaluator`: the generation numbers are unbounded; they are at most the number of nodes, which a snapshot keeps below fifty thousand.
- `FrozenPath`: the final lookup of a backend id, and the cache of element children, which returns what is computed here.
- `CaptureWindow`: contents of samples, screenshots and URLs, and readiness of a loading state; their outcome is the `ok` of a turn. The deadlines of the waiting loops are not modelled, so a turn onward may come at any time.
- `CaptureWindow.Noted`: times are milliseconds of one clock that never runs backwards.
- `TerminalArchive`: one process holds the lock at a time, so the takeover of a stale lock by two processes at once is not modelled. Atomic rename and atomic JSON write are taken as given, and temporary files of the latter are not seen; the owner file of the lock is written without either, and is created and filled in two steps. Whether a process still runs may change between attempts only. Errors of the file system other than an existing lock are left out.
- `TerminalArchive.ArtifactsKept`: whether the paths inside an artifact are rewritten after a crash is not claimed; a retry looks for artifacts in the session that was already rewritten.
- `TerminalArchive.RunFiles`: non-terminal results, the checks of result envelopes and RFC sidecars, telemetry and printed output.
- `PathRebase.Run`: the repository root and the directory above `.pm/dev-sessions` are one; a `repo_root` elsewhere, for which the repository-relative rule compares other pieces, is not modelled.
- `PathRebase`: paths are POSIX paths given piece by piece; Windows separators matter only in the repository-relative rule.
- The archive protocol of `groom-session.js`: a crash between its write and its rename leaves a complete session that it then rejects.
- `BugBody`: the byte limit and the NUL check before normalisation. Lines are of Unicode characters rather than UTF-16 units.
- `BugBody.CanonicalBodiesAreFixed`: one direction, as is the fixed point in `BugBody.NormalizedIsFixed`; `BugBody.AccidentalFixedPoint` is a body outside the conditions that is a fixed point.
- `IdAllocator`: reading and parsing of files, the lock, enrichment of existing records, which keeps their ids.
- `ConfigEdits`: the order of keys in an object, the JSON array field `length`, and the receipts of operational effects. Hashes of files are taken as their contents.
- `MarkupScanner`: letters are lower-cased as in ASCII, so texts keep their length. That `structuralMarkup` is not idempotent is not stated. The checks built on the scanner are not modelled.
- `TelemetryLedger`: the byte limit of the file, which depends on its printed form, and the lock. Durations and sums are exact reals. All recovered segments of one call share one end time.
- `AuditNormalize`: schema version 2 with native observations, the binding to the raw file, the identity fields of an audit, and the texts of error messages. Array indexes in messages would depend on the order of observations.
- `ShadowReport`: floating-point rounding of the percentage and of means; numbers are exact reals and finite.
- `BaseDrift`: running Git, commit identities and the verification of the merge receipt, which arrives verified. Streams are decoded texts.
- `Sorting`: collation is any total order on texts; a collation that calls different texts equal is not covered.
- Browser control, sockets, screenshots, image decoding, subprocesses, the board page, command lines and prompts: calls into code outside these algorithms.

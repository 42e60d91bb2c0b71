/**
 The bounded timing ledger: open segments, the last 512 closed events and the
 totals of the events dropped before them. Durations are exact reals; clock
 readings and the set of live processes come with each operation.
 */
module TelemetryLedger {
  import opened Lists
  import opened Sorting
  import opened Texts
  import opened Wrappers

  const MAX_EVENTS := 512
  const MAX_OPEN_SEGMENTS := 64
  const ROUNDING := 0.0005

  datatype Kind =
    | EnvironmentPreflight | ActiveCommand | ReviewWait | CiQueue | CiRun
    | MergeWait | Invalidation | Reuse | FinalCertification

  datatype Outcome = Passed | Failed | Blocked | Skipped | Interrupted

  datatype Facts = Facts(
    kind: Kind,
    app: Option<string>,
    route: Option<string>,
    artifact: Option<string>,
    delivery: Option<string>)

  datatype Segment = Segment(token: string, process: string, facts: Facts, startedAt: string, startNs: int)

  datatype Duration = Unknown | Milliseconds(value: real)

  datatype Event = Event(
    sequence: nat,
    facts: Facts,
    startedAt: string,
    endedAt: string,
    duration: Duration,
    outcome: Outcome,
    certifications: nat)

  /** The ledger as written; the last three fields are its compaction totals. */
  datatype Document = Document(
    events: seq<Event>,
    open: seq<Segment>,
    dropped: nat,
    durationMs: real,
    certifications: nat)

  datatype Operation =
    | Begin(segment: Segment)
    | Finish(token: string, process: string, outcome: Outcome, certifications: nat, nowNs: int, endedAt: string)
    | Recover(current: string, alive: set<string>, endedAt: string)

  datatype Error = BadIdentifier | TokenExists | TooManyOpen | SegmentUnavailable | MovedBackwards

  datatype Closing = Closing(segment: Segment, event: Event)

  /** What an operation does before compaction. */
  datatype Change = Change(document: Document, begun: seq<Segment>, closed: seq<Closing>)

  const EMPTY := Document([], [], 0, 0.0, 0)

  // ------------------------------------------------------------- operations

  predicate IsOptionalIdentifier(s: Option<string>) {
    s.Some? ==> IsIdentifier(s.value)
  }

  predicate WellFormed(segment: Segment) {
    && IsIdentifier(segment.token) && IsIdentifier(segment.process)
    && IsOptionalIdentifier(segment.facts.app) && IsOptionalIdentifier(segment.facts.route)
    && IsOptionalIdentifier(segment.facts.artifact) && IsOptionalIdentifier(segment.facts.delivery)
  }

  predicate HasToken(open: seq<Segment>, token: string) {
    exists i :: 0 <= i < |open| && open[i].token == token
  }

  /** The first open segment of that token and process, or the length when there is none. */
  function IndexOf(open: seq<Segment>, token: string, process: string): (i: nat)
    ensures i <= |open|
    ensures i < |open| ==> open[i].token == token && open[i].process == process
    ensures forall j :: 0 <= j < i ==> open[j].token != token || open[j].process != process
  {
    if open == [] then 0
    else if open[0].token == token && open[0].process == process then 0
    else
      var rest := IndexOf(open[1..], token, process);
      assert forall j :: 1 <= j < |open| ==> open[j] == open[1..][j - 1];
      rest + 1
  }

  function CloseEvent(
    segment: Segment, outcome: Outcome, certifications: nat, endedAt: string, duration: Duration): Event {
    Event(0, segment.facts, segment.startedAt, endedAt, duration, outcome, certifications)
  }

  predicate Survives(segment: Segment, current: string, alive: set<string>) {
    segment.process == current || segment.process in alive
  }

  function Filtered(open: seq<Segment>, current: string, alive: set<string>, surviving: bool): seq<Segment> {
    if open == [] then []
    else
      var front := Filtered(open[..|open| - 1], current, alive, surviving);
      if Survives(open[|open| - 1], current, alive) == surviving then front + [open[|open| - 1]] else front
  }

  function Interruptions(segments: seq<Segment>, endedAt: string): (r: seq<Closing>)
    ensures |r| == |segments|
  {
    if segments == [] then []
    else
      var last := segments[|segments| - 1];
      Interruptions(segments[..|segments| - 1], endedAt)
      + [Closing(last, CloseEvent(last, Interrupted, 0, endedAt, Unknown))]
  }

  function EventsOf(closed: seq<Closing>): (r: seq<Event>)
    ensures |r| == |closed|
  {
    if closed == [] then [] else EventsOf(closed[..|closed| - 1]) + [closed[|closed| - 1].event]
  }

  function SegmentsOf(closed: seq<Closing>): (r: seq<Segment>)
    ensures |r| == |closed|
  {
    if closed == [] then [] else SegmentsOf(closed[..|closed| - 1]) + [closed[|closed| - 1].segment]
  }

  /** The operation on the ledger, or the error that leaves it as it was. `byToken` is the collation of tokens. */
  function Changed(document: Document, operation: Operation, byToken: (Segment, Segment) -> bool):
    Result<Change, Error> {
    match operation
    case Begin(segment) =>
      if !WellFormed(segment) then Failure(BadIdentifier)
      else if HasToken(document.open, segment.token) then Failure(TokenExists)
      else if |document.open| >= MAX_OPEN_SEGMENTS then Failure(TooManyOpen)
      else Success(Change(document.(open := Sort(document.open + [segment], byToken)), [segment], []))
    case Finish(token, process, outcome, certifications, nowNs, endedAt) =>
      var i := IndexOf(document.open, token, process);
      if i == |document.open| then Failure(SegmentUnavailable)
      else
        var segment := document.open[i];
        var elapsed := nowNs - segment.startNs;
        if elapsed < 0 then Failure(MovedBackwards)
        else
          var event := CloseEvent(segment, outcome, certifications, endedAt, Milliseconds(elapsed as real / 1000000.0));
          Success(Change(document.(open := Without(document.open, i), events := document.events + [event]),
                    [], [Closing(segment, event)]))
    case Recover(current, alive, endedAt) =>
      if !IsIdentifier(current) then Failure(BadIdentifier)
      else
        var interrupted := Sort(Filtered(document.open, current, alive, false), byToken);
        var closed := Interruptions(interrupted, endedAt);
        Success(Change(document.(open := Filtered(document.open, current, alive, true),
                                 events := document.events + EventsOf(closed)),
                  [], closed))
  }

  // ------------------------------------------------------------- compaction

  function Round(value: real): real {
    (value * 1000.0 + 0.5).Floor as real / 1000.0
  }

  function Ms(duration: Duration): real {
    if duration.Unknown? then 0.0 else duration.value
  }

  function TotalMs(events: seq<Event>): real {
    if events == [] then 0.0 else TotalMs(events[..|events| - 1]) + Ms(events[|events| - 1].duration)
  }

  function TotalCertifications(events: seq<Event>): nat {
    if events == [] then 0
    else TotalCertifications(events[..|events| - 1]) + events[|events| - 1].certifications
  }

  function Numbered(events: seq<Event>, dropped: nat): (r: seq<Event>)
    ensures |r| == |events|
  {
    if events == [] then []
    else Numbered(events[..|events| - 1], dropped) + [events[|events| - 1].(sequence := dropped + |events|)]
  }

  function Excess(document: Document): nat {
    if |document.events| > MAX_EVENTS then |document.events| - MAX_EVENTS else 0
  }

  function Compacted(document: Document): Document {
    var excess := Excess(document);
    var removed := document.events[..excess];
    var dropped := document.dropped + excess;
    document.(
      events := Numbered(document.events[excess..], dropped),
      dropped := dropped,
      durationMs := if excess > 0 then Round(document.durationMs + TotalMs(removed)) else document.durationMs,
      certifications := document.certifications + TotalCertifications(removed))
  }

  /** Rounding to a thousandth moves a value by at most half of one. */
  lemma RoundIsNear(value: real)
    ensures value - ROUNDING <= Round(value) <= value + ROUNDING
  {
    var floor := (value * 1000.0 + 0.5).Floor as real;
    assert floor <= value * 1000.0 + 0.5 < floor + 1.0;
  }

  // ------------------------------------------------------------------- runs

  /** All segments begun and all closed so far, and how often events were dropped. */
  datatype History = History(begun: seq<Segment>, closed: seq<Closing>, compactions: nat)

  datatype Run = Run(document: Document, history: History)

  function Performed(run: Run, operation: Operation, byToken: (Segment, Segment) -> bool): Run {
    match Changed(run.document, operation, byToken)
    case Failure(_) => run
    case Success(change) =>
      Run(Compacted(change.document),
          History(run.history.begun + change.begun, run.history.closed + change.closed,
                  run.history.compactions + if Excess(change.document) > 0 then 1 else 0))
  }

  function After(operations: seq<Operation>, byToken: (Segment, Segment) -> bool): Run {
    if operations == [] then Run(EMPTY, History([], [], 0))
    else Performed(After(operations[..|operations| - 1], byToken), operations[|operations| - 1], byToken)
  }

  /** `event` is the closed event `original`, under the number given. */
  predicate IsNumbered(event: Event, original: Event, number: nat) {
    event == original.(sequence := number)
  }

  predicate UniqueTokens(open: seq<Segment>) {
    forall i, j :: 0 <= i < j < |open| ==> open[i].token != open[j].token
  }

  /** The ledger's events are the last ones of the log, each numbered by its place in it. */
  predicate IsWindow(document: Document, log: seq<Event>) {
    && document.dropped + |document.events| == |log|
    && forall i :: 0 <= i < |document.events| ==>
         IsNumbered(document.events[i], log[document.dropped + i], document.dropped + i + 1)
  }

  predicate TotalsKept(document: Document, log: seq<Event>, compactions: nat)
    requires document.dropped <= |log|
  {
    var removed := log[..document.dropped];
    && document.certifications == TotalCertifications(removed)
    && -(compactions as real * ROUNDING) <= document.durationMs - TotalMs(removed) <= compactions as real * ROUNDING
  }

  predicate SegmentsKept(open: seq<Segment>, begun: seq<Segment>, closed: seq<Closing>) {
    && UniqueTokens(open) && |open| <= MAX_OPEN_SEGMENTS
    && multiset(begun) == multiset(open) + multiset(SegmentsOf(closed))
    && |begun| == |open| + |closed|
  }

  predicate Faithful(run: Run) {
    var log := EventsOf(run.history.closed);
    && IsWindow(run.document, log)
    && |run.document.events| == (if |log| <= MAX_EVENTS then |log| else MAX_EVENTS)
    && TotalsKept(run.document, log, run.history.compactions)
    && SegmentsKept(run.document.open, run.history.begun, run.history.closed)
  }

  // ------------------------------------------------------- list bookkeeping

  lemma {:induction false} TotalsAppend(a: seq<Event>, b: seq<Event>)
    ensures TotalMs(a + b) == TotalMs(a) + TotalMs(b)
    ensures TotalCertifications(a + b) == TotalCertifications(a) + TotalCertifications(b)
    decreases |b|
  {
    if b == [] {
      assert a + b == a;
    } else {
      assert (a + b)[..|a + b| - 1] == a + b[..|b| - 1];
      TotalsAppend(a, b[..|b| - 1]);
    }
  }

  lemma {:induction false} ClosedAppend(a: seq<Closing>, b: seq<Closing>)
    ensures EventsOf(a + b) == EventsOf(a) + EventsOf(b) && SegmentsOf(a + b) == SegmentsOf(a) + SegmentsOf(b)
    decreases |b|
  {
    if b == [] {
      assert a + b == a;
    } else {
      assert (a + b)[..|a + b| - 1] == a + b[..|b| - 1];
      ClosedAppend(a, b[..|b| - 1]);
    }
  }

  lemma {:induction false} NumberedAt(events: seq<Event>, dropped: nat, i: nat)
    requires i < |events|
    ensures IsNumbered(Numbered(events, dropped)[i], events[i], dropped + i + 1)
  {
    if i < |events| - 1 {
      NumberedAt(events[..|events| - 1], dropped, i);
    }
  }

  /** Numbers do not enter the totals. */
  lemma {:induction false} NumbersDoNotCount(a: seq<Event>, b: seq<Event>)
    requires |a| == |b| && forall i :: 0 <= i < |a| ==>
               a[i].duration == b[i].duration && a[i].certifications == b[i].certifications
    ensures TotalMs(a) == TotalMs(b) && TotalCertifications(a) == TotalCertifications(b)
  {
    if a != [] {
      NumbersDoNotCount(a[..|a| - 1], b[..|b| - 1]);
    }
  }

  lemma {:induction false} InterruptionsAreOf(segments: seq<Segment>, endedAt: string)
    ensures SegmentsOf(Interruptions(segments, endedAt)) == segments
  {
    if segments != [] {
      var last := segments[|segments| - 1];
      var front := Interruptions(segments[..|segments| - 1], endedAt);
      InterruptionsAreOf(segments[..|segments| - 1], endedAt);
      var all := Interruptions(segments, endedAt);
      assert all[..|all| - 1] == front;
    }
  }

  lemma {:induction false} FilterSplits(open: seq<Segment>, current: string, alive: set<string>)
    ensures multiset(open)
            == multiset(Filtered(open, current, alive, true)) + multiset(Filtered(open, current, alive, false))
    ensures |open| == |Filtered(open, current, alive, true)| + |Filtered(open, current, alive, false)|
  {
    if open != [] {
      var front, last := open[..|open| - 1], open[|open| - 1];
      FilterSplits(front, current, alive);
      assert multiset(open) == multiset(front) + multiset{last} by {
        assert open == front + [last];
      }
    }
  }

  lemma {:induction false} FilterKeepsUnique(open: seq<Segment>, current: string, alive: set<string>)
    requires UniqueTokens(open)
    ensures UniqueTokens(Filtered(open, current, alive, true))
    ensures forall i :: 0 <= i < |Filtered(open, current, alive, true)| ==>
                    Filtered(open, current, alive, true)[i] in open
  {
    if open != [] {
      var front := open[..|open| - 1];
      FilterKeepsUnique(front, current, alive);
      var kept := Filtered(front, current, alive, true);
      forall i | 0 <= i < |kept|
        ensures kept[i] in open && kept[i].token != open[|open| - 1].token
      {
        assert kept[i] in front;
      }
    }
  }

  lemma {:induction false} InsertKeepsUnique(open: seq<Segment>, segment: Segment, byToken: (Segment, Segment) -> bool)
    requires UniqueTokens(open) && !HasToken(open, segment.token)
    ensures UniqueTokens(Insert(open, segment, byToken))
    decreases |open|
  {
    if open != [] && !byToken(open[|open| - 1], segment) {
      var front, last := open[..|open| - 1], open[|open| - 1];
      InsertKeepsUnique(front, segment, byToken);
      InsertAdds(front, segment, byToken);
      var inserted := Insert(front, segment, byToken);
      forall i | 0 <= i < |inserted|
        ensures inserted[i].token != last.token
      {
        assert inserted[i] in multiset(front) + multiset{segment};
        if inserted[i] in front {
          var j :| 0 <= j < |front| && front[j] == inserted[i];
          assert open[j].token != open[|open| - 1].token;
        }
      }
    }
  }

  lemma {:induction false} SortKeepsUnique(open: seq<Segment>, byToken: (Segment, Segment) -> bool)
    requires UniqueTokens(open)
    ensures UniqueTokens(Sort(open, byToken))
  {
    if open != [] {
      var front, last := open[..|open| - 1], open[|open| - 1];
      SortKeepsUnique(front, byToken);
      SortPermutes(front, byToken);
      var sorted := Sort(front, byToken);
      forall i | 0 <= i < |sorted|
        ensures sorted[i].token != last.token
      {
        assert sorted[i] in multiset(front);
        var j :| 0 <= j < |front| && front[j] == sorted[i];
      }
      InsertKeepsUnique(sorted, last, byToken);
    }
  }

  lemma WithoutOne(open: seq<Segment>, i: nat)
    requires i < |open|
    ensures multiset(open) == multiset(Without(open, i)) + multiset{open[i]}
    ensures UniqueTokens(open) ==> UniqueTokens(Without(open, i))
  {
    assert open == open[..i] + [open[i]] + open[i + 1..];
    var rest := Without(open, i);
    forall j | 0 <= j < |rest|
      ensures rest[j] == open[if j < i then j else j + 1]
    {
    }
  }

  // ------------------------------------------------------ every step keeps it

  lemma BeginKeepsSegments(open: seq<Segment>, begun: seq<Segment>, closed: seq<Closing>, segment: Segment,
                           byToken: (Segment, Segment) -> bool)
    requires SegmentsKept(open, begun, closed) && !HasToken(open, segment.token) && |open| < MAX_OPEN_SEGMENTS
    ensures SegmentsKept(Sort(open + [segment], byToken), begun + [segment], closed)
  {
    SortPermutes(open + [segment], byToken);
    SortKeepsUnique(open + [segment], byToken);
  }

  lemma FinishKeepsSegments(open: seq<Segment>, begun: seq<Segment>, closed: seq<Closing>, i: nat, event: Event)
    requires SegmentsKept(open, begun, closed) && i < |open|
    ensures SegmentsKept(Without(open, i), begun, closed + [Closing(open[i], event)])
  {
    WithoutOne(open, i);
    var added := closed + [Closing(open[i], event)];
    assert added[..|added| - 1] == closed;
    assert SegmentsOf(added) == SegmentsOf(closed) + [open[i]];
  }

  lemma RecoverKeepsSegments(open: seq<Segment>, begun: seq<Segment>, closed: seq<Closing>, current: string,
                             alive: set<string>, endedAt: string, byToken: (Segment, Segment) -> bool)
    requires SegmentsKept(open, begun, closed)
    ensures var interrupted := Sort(Filtered(open, current, alive, false), byToken);
            SegmentsKept(Filtered(open, current, alive, true), begun, closed + Interruptions(interrupted, endedAt))
  {
    var dead := Filtered(open, current, alive, false);
    FilterSplits(open, current, alive);
    FilterKeepsUnique(open, current, alive);
    SortPermutes(dead, byToken);
    InterruptionsAreOf(Sort(dead, byToken), endedAt);
    ClosedAppend(closed, Interruptions(Sort(dead, byToken), endedAt));
  }

  /** Begun is open plus closed, and open tokens stay unique, whatever the operation. */
  lemma ChangeKeepsSegments(document: Document, operation: Operation, begun: seq<Segment>, closed: seq<Closing>,
                            byToken: (Segment, Segment) -> bool)
    requires SegmentsKept(document.open, begun, closed) && Changed(document, operation, byToken).Success?
    ensures var change := Changed(document, operation, byToken).value;
            SegmentsKept(change.document.open, begun + change.begun, closed + change.closed)
  {
    hide SegmentsKept;
    var change := Changed(document, operation, byToken).value;
    match operation
    case Begin(segment) =>
      BeginKeepsSegments(document.open, begun, closed, segment, byToken);
      assert closed + [] == closed;
    case Finish(token, process, _, _, _, _) =>
      var i := IndexOf(document.open, token, process);
      FinishKeepsSegments(document.open, begun, closed, i, change.closed[0].event);
      assert begun + [] == begun;
    case Recover(current, alive, endedAt) =>
      RecoverKeepsSegments(document.open, begun, closed, current, alive, endedAt, byToken);
      assert begun + [] == begun;
  }

  /** An operation appends exactly its closings to the events, and touches no total. */
  lemma ChangeAppendsEvents(document: Document, operation: Operation, byToken: (Segment, Segment) -> bool)
    requires Changed(document, operation, byToken).Success?
    ensures var change := Changed(document, operation, byToken).value;
            && change.document.events == document.events + EventsOf(change.closed)
            && change.document.dropped == document.dropped
            && change.document.durationMs == document.durationMs
            && change.document.certifications == document.certifications
  {
    var change := Changed(document, operation, byToken).value;
    match operation
    case Begin(_) => assert document.events + [] == document.events;
    case Finish(_, _, _, _, _, _) =>
      assert EventsOf(change.closed) == EventsOf([]) + [change.closed[0].event] by {
        assert change.closed[..0] == [];
      }
    case Recover(_, _, _) =>
  }

  /** The events are the end of the log, up to their numbers. */
  predicate IsTail(document: Document, log: seq<Event>) {
    && document.dropped + |document.events| == |log|
    && forall i :: 0 <= i < |document.events| ==>
         IsNumbered(document.events[i], log[document.dropped + i], document.events[i].sequence)
  }

  lemma AppendKeepsTail(document: Document, grown: Document, log: seq<Event>, added: seq<Event>, compactions: nat)
    requires IsWindow(document, log) && TotalsKept(document, log, compactions)
    requires grown.events == document.events + added && grown.dropped == document.dropped
    requires grown.durationMs == document.durationMs && grown.certifications == document.certifications
    ensures IsTail(grown, log + added) && TotalsKept(grown, log + added, compactions)
  {
    assert (log + added)[..document.dropped] == log[..document.dropped];
    forall i | 0 <= i < |grown.events|
      ensures IsNumbered(grown.events[i], (log + added)[document.dropped + i], grown.events[i].sequence)
    {
      if i < |document.events| {
        assert IsNumbered(document.events[i], log[document.dropped + i], document.dropped + i + 1);
      }
    }
  }

  lemma CompactKeepsWindow(document: Document, log: seq<Event>)
    requires IsTail(document, log)
    ensures IsWindow(Compacted(document), log)
    ensures |Compacted(document).events| == |document.events| - Excess(document)
    ensures Compacted(document).open == document.open
    ensures |document.events| <= MAX_EVENTS <==> Excess(document) == 0
    ensures Excess(document) > 0 ==> |Compacted(document).events| == MAX_EVENTS
  {
    var excess := Excess(document);
    var after := Compacted(document);
    forall i | 0 <= i < |after.events|
      ensures IsNumbered(after.events[i], log[after.dropped + i], after.dropped + i + 1)
    {
      NumberedAt(document.events[excess..], after.dropped, i);
      assert IsNumbered(document.events[excess + i],
                        log[document.dropped + excess + i], document.events[excess + i].sequence);
    }
  }

  /** What is dropped goes into the totals: exactly for certifications, up to one rounding for milliseconds. */
  lemma CompactKeepsTotals(document: Document, log: seq<Event>, compactions: nat)
    requires IsTail(document, log) && TotalsKept(document, log, compactions)
    ensures IsWindow(Compacted(document), log)
    ensures TotalsKept(Compacted(document), log, compactions + if Excess(document) > 0 then 1 else 0)
  {
    CompactKeepsWindow(document, log);
    var excess := Excess(document);
    var before, removed := log[..document.dropped], document.events[..excess];
    var moved := log[document.dropped..document.dropped + excess];
    assert log[..document.dropped + excess] == before + moved;
    forall i | 0 <= i < excess
      ensures removed[i].duration == moved[i].duration && removed[i].certifications == moved[i].certifications
    {
      assert IsNumbered(document.events[i], log[document.dropped + i], document.events[i].sequence);
    }
    NumbersDoNotCount(removed, moved);
    TotalsAppend(before, moved);
    RoundIsNear(document.durationMs + TotalMs(removed));
    if excess == 0 {
      assert before + moved == before;
    }
  }

  lemma PerformedIsFaithful(run: Run, operation: Operation, byToken: (Segment, Segment) -> bool)
    requires Faithful(run)
    ensures Faithful(Performed(run, operation, byToken))
  {
    hide SegmentsKept;
    hide TotalsKept;
    hide IsTail;
    hide Changed;
    hide Compacted;
    hide Excess;
    if Changed(run.document, operation, byToken).Success? {
      var change := Changed(run.document, operation, byToken).value;
      var log := EventsOf(run.history.closed);
      var added := EventsOf(change.closed);
      ChangeKeepsSegments(run.document, operation, run.history.begun, run.history.closed, byToken);
      ChangeAppendsEvents(run.document, operation, byToken);
      ClosedAppend(run.history.closed, change.closed);
      AppendKeepsTail(run.document, change.document, log, added, run.history.compactions);
      CompactKeepsTotals(change.document, log + added, run.history.compactions);
      CompactKeepsWindow(change.document, log + added);
    }
  }

  /**
   After any run the ledger holds the last min(512, n) of the n closed events,
   each under its own number; begun is open plus closed with unique open tokens;
   certifications add up exactly and milliseconds up to 0.0005 a compaction.
   */
  lemma {:induction false} EveryRunIsFaithful(operations: seq<Operation>, byToken: (Segment, Segment) -> bool)
    ensures Faithful(After(operations, byToken))
  {
    if operations != [] {
      EveryRunIsFaithful(operations[..|operations| - 1], byToken);
      PerformedIsFaithful(After(operations[..|operations| - 1], byToken), operations[|operations| - 1], byToken);
    }
  }

  /** All certifications ever closed are in the ledger or in its totals; likewise milliseconds, up to the roundings. */
  lemma TotalsAreConserved(operations: seq<Operation>, byToken: (Segment, Segment) -> bool)
    ensures var run := After(operations, byToken);
            var log := EventsOf(run.history.closed);
            && run.document.certifications + TotalCertifications(run.document.events) == TotalCertifications(log)
            && -(run.history.compactions as real * ROUNDING)
               <= run.document.durationMs + TotalMs(run.document.events) - TotalMs(log)
               <= run.history.compactions as real * ROUNDING
  {
    EveryRunIsFaithful(operations, byToken);
    var run := After(operations, byToken);
    var log := EventsOf(run.history.closed);
    hide After;
    hide EventsOf;
    hide TotalMs;
    hide TotalCertifications;
    var kept := log[run.document.dropped..];
    assert log == log[..run.document.dropped] + kept;
    forall i | 0 <= i < |kept|
      ensures run.document.events[i].duration == kept[i].duration
      ensures run.document.events[i].certifications == kept[i].certifications
    {
      assert IsNumbered(run.document.events[i], log[run.document.dropped + i], run.document.dropped + i + 1);
    }
    NumbersDoNotCount(run.document.events, kept);
    TotalsAppend(log[..run.document.dropped], kept);
  }

  // --------------------------------------------------- the ledger in memory

  method SumDurations(events: seq<Event>) returns (sum: real)
    ensures sum == TotalMs(events)
  {
    sum := 0.0;
    for i := 0 to |events|
      invariant sum == TotalMs(events[..i])
    {
      assert events[..i + 1][..i] == events[..i];
      sum := sum + Ms(events[i].duration);
    }
    assert events[..|events|] == events;
  }

  method SumCertifications(events: seq<Event>) returns (sum: nat)
    ensures sum == TotalCertifications(events)
  {
    sum := 0;
    for i := 0 to |events|
      invariant sum == TotalCertifications(events[..i])
    {
      assert events[..i + 1][..i] == events[..i];
      sum := sum + events[i].certifications;
    }
    assert events[..|events|] == events;
  }

  lemma NumberOne(all: seq<Event>, i: nat, dropped: nat)
    requires i < |all|
    ensures var before := Numbered(all[..i], dropped) + all[i..];
            before[i := before[i].(sequence := dropped + i + 1)] == Numbered(all[..i + 1], dropped) + all[i + 1..]
  {
    assert all[..i + 1][..i] == all[..i];
    assert (Numbered(all[..i], dropped) + all[i..])[i] == all[i];
  }

  class Ledger {
    var events: seq<Event>
    var openSegments: seq<Segment>
    var droppedEvents: nat
    var durationMs: real
    var certificationCount: nat

    function Contents(): Document
      reads this
    {
      Document(events, openSegments, droppedEvents, durationMs, certificationCount)
    }

    constructor (document: Document)
      ensures Contents() == document
    {
      events, openSegments := document.events, document.open;
      droppedEvents, durationMs := document.dropped, document.durationMs;
      certificationCount := document.certifications;
    }

    method DropOldest()
      modifies this
      ensures events == old(events)[Excess(old(Contents()))..] && openSegments == old(openSegments)
      ensures droppedEvents == Compacted(old(Contents())).dropped
      ensures durationMs == Compacted(old(Contents())).durationMs
      ensures certificationCount == Compacted(old(Contents())).certifications
    {
      if |events| > MAX_EVENTS {
        var removed := events[..|events| - MAX_EVENTS];
        events := events[|events| - MAX_EVENTS..];
        droppedEvents := droppedEvents + |removed|;
        var sum := SumDurations(removed);
        durationMs := Round(durationMs + sum);
        var certifications := SumCertifications(removed);
        certificationCount := certificationCount + certifications;
      }
    }

    method Renumber()
      modifies `events
      ensures events == Numbered(old(events), droppedEvents)
    {
      ghost var unnumbered := events;
      for index := 0 to |events|
        invariant |events| == |unnumbered|
        invariant events == Numbered(unnumbered[..index], droppedEvents) + unnumbered[index..]
      {
        NumberOne(unnumbered, index, droppedEvents);
        events := events[index := events[index].(sequence := droppedEvents + index + 1)];
      }
      assert unnumbered[..|events|] == unnumbered;
    }

    /** Drops the oldest events over the limit into the totals, then numbers the rest in place. */
    method Compact()
      modifies this
      ensures Contents() == Compacted(old(Contents()))
    {
      DropOldest();
      Renumber();
    }

    method IndexOfSegment(token: string, process: string) returns (index: nat)
      ensures index == IndexOf(openSegments, token, process)
    {
      index := 0;
      while index < |openSegments| && (openSegments[index].token != token || openSegments[index].process != process)
        invariant index <= |openSegments|
        invariant IndexOf(openSegments, token, process) == index + IndexOf(openSegments[index..], token, process)
      {
        assert openSegments[index..][1..] == openSegments[index + 1..];
        index := index + 1;
      }
    }

    /** Closes the interrupted segments one after the other. */
    method CloseInterrupted(interrupted: seq<Segment>, endedAt: string)
      modifies `events
      ensures events == old(events) + EventsOf(Interruptions(interrupted, endedAt))
    {
      for i := 0 to |interrupted|
        invariant events == old(events) + EventsOf(Interruptions(interrupted[..i], endedAt))
      {
        InterruptionsGrow(interrupted, i, endedAt);
        hide Interruptions;
        hide EventsOf;
        events := events + [CloseEvent(interrupted[i], Interrupted, 0, endedAt, Unknown)];
      }
      assert interrupted[..|interrupted|] == interrupted;
    }

    /** Splits the open segments by whether their process survives. */
    method Split(current: string, alive: set<string>) returns (retained: seq<Segment>, interrupted: seq<Segment>)
      ensures retained == Filtered(openSegments, current, alive, true)
      ensures interrupted == Filtered(openSegments, current, alive, false)
    {
      retained, interrupted := [], [];
      for i := 0 to |openSegments|
        invariant retained == Filtered(openSegments[..i], current, alive, true)
        invariant interrupted == Filtered(openSegments[..i], current, alive, false)
      {
        assert openSegments[..i + 1][..i] == openSegments[..i];
        if openSegments[i].process == current || openSegments[i].process in alive {
          retained := retained + [openSegments[i]];
        } else {
          interrupted := interrupted + [openSegments[i]];
        }
      }
      assert openSegments[..|openSegments|] == openSegments;
    }
  }

  // ---------------------------------------------------------- the ledger file

  /** The file under its lock. Each operation reads it, works in memory, and writes it back unless it fails. */
  class LedgerFile {
    var document: Document
    ghost var history: History
    const byToken: (Segment, Segment) -> bool

    ghost function View(): Run
      reads this
    {
      Run(document, history)
    }

    constructor (byToken: (Segment, Segment) -> bool)
      ensures View() == After([], byToken) && this.byToken == byToken
    {
      document := EMPTY;
      history := History([], [], 0);
      this.byToken := byToken;
    }

    method BeginSegment(segment: Segment) returns (result: Result<string, Error>)
      requires Faithful(View())
      modifies this
      ensures View() == Performed(old(View()), Begin(segment), byToken) && Faithful(View())
      ensures result == match Changed(old(document), Begin(segment), byToken)
                        case Success(_) => Success(segment.token)
                        case Failure(error) => Failure(error)
    {
      hide Faithful;
      hide Compacted;
      PerformedIsFaithful(View(), Begin(segment), byToken);
      if !WellFormed(segment) {
        return Failure(BadIdentifier);
      }
      var ledger := new Ledger(document);
      if exists i :: 0 <= i < |ledger.openSegments| && ledger.openSegments[i].token == segment.token {
        return Failure(TokenExists);
      }
      if |ledger.openSegments| >= MAX_OPEN_SEGMENTS {
        return Failure(TooManyOpen);
      }
      ledger.openSegments := Sort(ledger.openSegments + [segment], byToken);
      WriteBack(ledger, Begin(segment));
      return Success(segment.token);
    }

    method FinishSegment(
        token: string, process: string, outcome: Outcome, certifications: nat, nowNs: int, endedAt: string)
        returns (result: Result<Event, Error>)
      requires Faithful(View())
      modifies this
      ensures var operation := Finish(token, process, outcome, certifications, nowNs, endedAt);
              && View() == Performed(old(View()), operation, byToken) && Faithful(View())
              && result == match Changed(old(document), operation, byToken)
                           case Success(change) => Success(change.closed[0].event)
                           case Failure(error) => Failure(error)
    {
      ghost var operation := Finish(token, process, outcome, certifications, nowNs, endedAt);
      hide Faithful;
      hide Compacted;
      PerformedIsFaithful(View(), operation, byToken);
      var ledger := new Ledger(document);
      var index := ledger.IndexOfSegment(token, process);
      if index == |ledger.openSegments| {
        return Failure(SegmentUnavailable);
      }
      var segment := ledger.openSegments[index];
      ledger.openSegments := ledger.openSegments[..index] + ledger.openSegments[index + 1..];
      var elapsed := nowNs - segment.startNs;
      if elapsed < 0 {
        return Failure(MovedBackwards);
      }
      var event := CloseEvent(segment, outcome, certifications, endedAt, Milliseconds(elapsed as real / 1000000.0));
      ledger.events := ledger.events + [event];
      WriteBack(ledger, operation);
      return Success(event);
    }

    method RecoverInterrupted(current: string, alive: set<string>, endedAt: string) returns (result: Result<nat, Error>)
      requires Faithful(View())
      modifies this
      ensures View() == Performed(old(View()), Recover(current, alive, endedAt), byToken) && Faithful(View())
      ensures result == match Changed(old(document), Recover(current, alive, endedAt), byToken)
                        case Success(change) => Success(|change.closed|)
                        case Failure(error) => Failure(error)
    {
      ghost var operation := Recover(current, alive, endedAt);
      hide Faithful;
      hide Compacted;
      PerformedIsFaithful(View(), operation, byToken);
      hide IsIdentifier;
      hide Interruptions;
      hide Filtered;
      if !IsIdentifier(current) {
        return Failure(BadIdentifier);
      }
      var ledger := new Ledger(document);
      var retained, interrupted := ledger.Split(current, alive);
      interrupted := Sort(interrupted, byToken);
      ledger.openSegments := retained;
      ledger.CloseInterrupted(interrupted, endedAt);
      WriteBack(ledger, operation);
      return Success(|interrupted|);
    }

    /** Compacts what the operation has made of the ledger and writes it to the file. */
    method WriteBack(ledger: Ledger, ghost operation: Operation)
      requires Changed(document, operation, byToken).Success?
      requires ledger.Contents() == Changed(document, operation, byToken).value.document
      modifies this, ledger
      ensures View() == Performed(old(View()), operation, byToken)
    {
      hide Compacted;
      hide Excess;
      ghost var change := Changed(document, operation, byToken).value;
      hide Changed;
      ledger.Compact();
      document := ledger.Contents();
      history := History(history.begun + change.begun, history.closed + change.closed,
                         history.compactions + if Excess(change.document) > 0 then 1 else 0);
    }
  }

  lemma InterruptionsGrow(segments: seq<Segment>, i: nat, endedAt: string)
    requires i < |segments|
    ensures EventsOf(Interruptions(segments[..i + 1], endedAt))
            == EventsOf(Interruptions(segments[..i], endedAt))
               + [CloseEvent(segments[i], Interrupted, 0, endedAt, Unknown)]
  {
    assert segments[..i + 1][..i] == segments[..i];
    var all := Interruptions(segments[..i + 1], endedAt);
    assert all[..|all| - 1] == Interruptions(segments[..i], endedAt);
  }
}

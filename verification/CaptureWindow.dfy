/**
 The critical capture windows of the probe. Asynchronous handlers count network
 activity and set a sticky drift flag; the main sequence runs between awaits,
 opens and closes the windows and throws when a check fails. A run is any list of
 handler events and main turns: between two turns any number of events may occur.
 */
module CaptureWindow {
  import opened Wrappers

  const MAX_NETWORK_REQUESTS := 2000
  const NETWORK_POLICY_OBSERVATION_MS := 500

  datatype Id = Id(scoped: string)

  datatype Drift = NetworkDrift | NavigationDrift | DocumentDrift

  datatype Instant = Instant(ms: nat)

  /** What the handlers and the main sequence share. `frozen` is the pending set at the last window opening. */
  datatype Monitor = Monitor(
    now: nat,
    epoch: nat,
    lastActivity: nat,
    window: bool,
    drift: Option<Drift>,
    handlerFailed: bool,
    overflow: bool,
    requests: nat,
    violation: Option<Instant>,
    pending: set<Id>,
    frozen: Option<set<Id>>,
    sockets: set<Id>,
    fetches: nat,
    targets: nat)

  datatype Completion = Untracked | Tracked | Bootstrap(parents: set<Id>)

  datatype Event =
    | Tick(ms: nat)
    | RequestPaused
    | FetchHandled(blocked: bool, failed: bool)
    | RequestSent(id: Id, malformed: bool, violates: bool, completion: Completion)
    | RequestDone(ids: set<Id>)
    | SocketCreated(id: Id, malformed: bool, allowed: bool)
    | SocketHandshake(id: Id, known: bool)
    | SocketSettled(id: Id)
    | SocketFrame
    | TargetAttached
    | InternalTarget
    | UnsupportedTarget
    | TargetHandled(failed: bool)
    | TargetDetached(requestIds: set<Id>, socketIds: set<Id>)
    | Navigated
    | DocumentChanged

  // ---------------------------------------------------------------- handlers

  function Drifted(m: Monitor, drift: Drift): Monitor {
    if m.window && m.drift.None? then m.(drift := Some(drift)) else m
  }

  function Noted(m: Monitor): Monitor {
    Drifted(m.(epoch := m.epoch + 1, lastActivity := m.now), NetworkDrift)
  }

  function Retained(m: Monitor): Monitor {
    if m.requests >= MAX_NETWORK_REQUESTS then m.(overflow := true) else m.(requests := m.requests + 1)
  }

  function Violated(m: Monitor, violates: bool): Monitor {
    if violates && m.violation.None? then m.(violation := Some(Instant(m.now))) else m
  }

  function Handled(m: Monitor, event: Event): Monitor {
    match event
    case Tick(ms) => m.(now := m.now + ms)
    case RequestPaused => Noted(m).(fetches := m.fetches + 1)
    case FetchHandled(blocked, failed) =>
      Violated(m, blocked).(fetches := if m.fetches > 0 then m.fetches - 1 else 0,
                            handlerFailed := m.handlerFailed || failed)
    case RequestSent(id, malformed, violates, completion) =>
      var seen := if malformed then Noted(m).(handlerFailed := true) else Violated(Retained(Noted(m)), violates);
      (match completion
       case Untracked => seen
       case Tracked => seen.(pending := seen.pending + {id})
       case Bootstrap(parents) => seen.(pending := seen.pending - parents))
    case RequestDone(ids) => Noted(m).(pending := m.pending - ids)
    case SocketCreated(id, malformed, allowed) =>
      if malformed then Noted(m).(handlerFailed := true)
      else
        var seen := Violated(Retained(Noted(m)), !allowed);
        if allowed then seen.(sockets := seen.sockets + {id}) else seen
    case SocketHandshake(id, known) => if known then Noted(m).(sockets := m.sockets + {id}) else Noted(m)
    case SocketSettled(id) => Noted(m).(sockets := m.sockets - {id})
    case SocketFrame => Noted(m)
    case TargetAttached => Noted(m).(targets := m.targets + 1)
    case InternalTarget => m.(targets := m.targets + 1)
    case UnsupportedTarget => m.(handlerFailed := true)
    case TargetHandled(failed) =>
      m.(targets := if m.targets > 0 then m.targets - 1 else 0, handlerFailed := m.handlerFailed || failed)
    case TargetDetached(requestIds, socketIds) =>
      Noted(m).(pending := m.pending - requestIds, sockets := m.sockets - socketIds)
    case Navigated => Drifted(m, NavigationDrift)
    case DocumentChanged => Drifted(m, DocumentDrift)
  }

  predicate NotesNetwork(event: Event) {
    || event.RequestPaused? || event.RequestSent? || event.RequestDone?
    || event.SocketCreated? || event.SocketHandshake? || event.SocketSettled? || event.SocketFrame?
    || event.TargetAttached? || event.TargetDetached?
  }

  /** A network, navigation, DOM or stylesheet event. */
  predicate Drifts(event: Event) {
    NotesNetwork(event) || event.Navigated? || event.DocumentChanged?
  }

  // ------------------------------------------------------------ main sequence

  datatype Pc =
    | Preparing(baselineTaken: bool)
    | BaselineReady(epoch: nat)
    | BaselineSampling(taken: nat)
    | BaselineClosing(epoch: nat)
    | Sampling(taken: nat)
    | Settling
    | CaptureClosing(epoch: nat)
    | Probing
    | ProbeSettling
    | ProbeClosing(epoch: nat)
    | Confirming
    | Emitted
    | Failed

  /** `captured` is the pending set reported with the result; `settleMs` comes from the configuration. */
  datatype State = State(pc: Pc, monitor: Monitor, captured: set<Id>, settleMs: nat)

  /** Of several ways on from an await: again to one like it, onward, or into the baseline window. */
  datatype Turn = Again | Onward | Baseline

  /** `ok` is the outcome of every check that looks at page data alone: samples, pixels, URLs, loading readiness. */
  datatype Act = Occurs(event: Event) | Runs(turn: Turn, ok: bool)

  const SAMPLES: nat := 5

  predicate Healthy(m: Monitor) {
    && !m.handlerFailed && !m.overflow
    && (m.violation.Some? ==> m.now < m.violation.value.ms + NETWORK_POLICY_OBSERVATION_MS)
    && m.drift.None?
  }

  predicate RequestsReady(m: Monitor, ok: bool) {
    ok && (m.frozen.Some? ==> m.pending == m.frozen.value)
  }

  predicate Idle(m: Monitor, ok: bool) {
    RequestsReady(m, ok) && m.sockets == {} && m.fetches == 0 && m.targets == 0
  }

  predicate Settled(m: Monitor, settleMs: nat) {
    m.now >= m.lastActivity + settleMs
  }

  function Opened(m: Monitor): Monitor {
    m.(frozen := Some(m.pending), window := true)
  }

  /** What the main sequence does between two awaits. */
  function MainTurn(s: State, turn: Turn, ok: bool): State {
    var m := s.monitor;
    var failed := s.(pc := Failed);
    match s.pc
    case Preparing(taken) =>
      (match turn
       case Again => if ok then s else failed
       case Baseline => if ok && !taken then s.(pc := BaselineReady(m.epoch)) else failed
       case Onward =>
         if Healthy(m) && Idle(m, ok) && Settled(m, s.settleMs) then
           s.(pc := Sampling(0), monitor := Opened(m), captured := m.pending)
         else failed)
    case BaselineReady(epoch) =>
      if Healthy(m) && m.epoch == epoch && Idle(m, ok) && Settled(m, s.settleMs) then
        s.(pc := BaselineSampling(0), monitor := Opened(m))
      else failed
    case BaselineSampling(taken) =>
      if !ok then failed
      else if turn.Again? then s
      else if taken + 1 < SAMPLES then s.(pc := BaselineSampling(taken + 1))
      else s.(pc := BaselineClosing(m.epoch))
    case BaselineClosing(epoch) =>
      if Healthy(m) && m.epoch == epoch && Idle(m, ok) then
        s.(pc := Preparing(true), monitor := m.(window := false, frozen := None))
      else failed
    case Sampling(taken) =>
      if !ok then failed
      else if turn.Again? then s
      else if taken + 1 < SAMPLES then s.(pc := Sampling(taken + 1))
      else if Healthy(m) then s.(pc := Settling)
      else failed
    case Settling =>
      if !Healthy(m) then failed
      else if turn.Again? then s
      else if Idle(m, ok) then s.(pc := CaptureClosing(m.epoch))
      else failed
    case CaptureClosing(epoch) =>
      if Healthy(m) && m.epoch == epoch && ok then s.(pc := Probing, monitor := m.(window := false)) else failed
    case Probing => if !ok then failed else if turn.Again? then s else s.(pc := ProbeSettling)
    case ProbeSettling =>
      if !Healthy(m) then failed
      else if turn.Again? then s
      else if Idle(m, ok) then s.(pc := ProbeClosing(m.epoch))
      else failed
    case ProbeClosing(epoch) => if Healthy(m) && m.epoch == epoch then s.(pc := Confirming) else failed
    case Confirming => if ok then s.(pc := Emitted) else failed
    case Emitted => s
    case Failed => s
  }

  /** The connection is closed once the main sequence has ended, so no event reaches a handler then. */
  function Applied(s: State, act: Act): State {
    if s.pc.Emitted? || s.pc.Failed? then s
    else
      match act
      case Occurs(event) => s.(monitor := Handled(s.monitor, event))
      case Runs(turn, ok) => MainTurn(s, turn, ok)
  }

  predicate Starts(s: State) {
    && s.pc == Preparing(false)
    && !s.monitor.window && s.monitor.drift.None? && s.monitor.frozen.None?
  }

  function After(s: State, acts: seq<Act>): State {
    if acts == [] then s else Applied(After(s, acts[..|acts| - 1]), acts[|acts| - 1])
  }

  // -------------------------------------------------------- what a run keeps

  predicate InWindow(pc: Pc) {
    || pc.BaselineSampling? || pc.BaselineClosing? || pc.Sampling? || pc.Settling? || pc.CaptureClosing?
  }

  predicate InCapture(pc: Pc) {
    pc.Sampling? || pc.Settling? || pc.CaptureClosing?
  }

  predicate PastCapture(pc: Pc) {
    pc.Probing? || pc.ProbeSettling? || pc.ProbeClosing? || pc.Confirming? || pc.Emitted?
  }

  /** The window flag follows the main sequence, and while no drift is seen the pending set is the frozen one. */
  predicate Inv(s: State) {
    && (!s.pc.Failed? ==> s.monitor.window == InWindow(s.pc))
    && (s.monitor.window && s.monitor.drift.None? ==> s.monitor.frozen == Some(s.monitor.pending))
    && (s.monitor.window && InCapture(s.pc) ==> s.monitor.frozen == Some(s.captured))
    && (PastCapture(s.pc) ==> s.monitor.drift.None? && s.monitor.frozen == Some(s.captured))
  }

  /** Pending requests change only in a handler that has noted the activity first. */
  lemma PendingChangesAreNoted(m: Monitor, event: Event)
    ensures Handled(m, event).pending != m.pending ==> NotesNetwork(event)
    ensures Handled(m, event).window == m.window && Handled(m, event).frozen == m.frozen
    ensures m.drift.Some? ==> Handled(m, event).drift == m.drift
    ensures m.drift.None? ==> (Handled(m, event).drift.Some? <==> m.window && Drifts(event))
    ensures Handled(m, event).epoch == if NotesNetwork(event) then m.epoch + 1 else m.epoch
  {
    if event.RequestSent? {
      SentIsNoted(m, event);
    } else if event.SocketCreated? {
      CreatedIsNoted(m, event);
    } else {
      hide Noted;
      hide Retained;
      hide Violated;
      NotedDoes(m);
      if event.FetchHandled? {
        BookkeepingKeeps(m, event.blocked);
      }
    }
  }

  lemma SentIsNoted(m: Monitor, event: Event)
    requires event.RequestSent?
    ensures var after := Handled(m, event);
            after.epoch == m.epoch + 1 && after.window == m.window && after.frozen == m.frozen
            && after.drift == Noted(m).drift && (m.drift.Some? ==> after.drift == m.drift)
            && (m.drift.None? ==> (after.drift.Some? <==> m.window))
  {
    hide Noted;
    hide Retained;
    hide Violated;
    NotedDoes(m);
    BookkeepingKeeps(Noted(m), event.violates);
  }

  lemma CreatedIsNoted(m: Monitor, event: Event)
    requires event.SocketCreated?
    ensures var after := Handled(m, event);
            after.epoch == m.epoch + 1 && after.window == m.window && after.frozen == m.frozen
            && after.drift == Noted(m).drift && (m.drift.Some? ==> after.drift == m.drift)
            && (m.drift.None? ==> (after.drift.Some? <==> m.window))
  {
    hide Noted;
    hide Retained;
    hide Violated;
    NotedDoes(m);
    BookkeepingKeeps(Noted(m), !event.allowed);
  }

  lemma NotedDoes(m: Monitor)
    ensures Noted(m) == m.(epoch := m.epoch + 1, lastActivity := m.now,
                           drift := if m.window && m.drift.None? then Some(NetworkDrift) else m.drift)
  {
  }

  /** The flags that the windows rely on. */
  predicate SameFlags(a: Monitor, b: Monitor) {
    && a.pending == b.pending && a.window == b.window && a.frozen == b.frozen && a.drift == b.drift
    && a.epoch == b.epoch && a.sockets == b.sockets
  }

  lemma BookkeepingKeeps(m: Monitor, violates: bool)
    ensures SameFlags(Violated(m, violates), m) && SameFlags(Violated(Retained(m), violates), m)
  {
  }

  lemma TurnKeepsInv(s: State, turn: Turn, ok: bool)
    requires Inv(s)
    ensures Inv(MainTurn(s, turn, ok))
    ensures MainTurn(s, turn, ok).monitor.drift == s.monitor.drift
  {
  }

  lemma ActKeepsInv(s: State, act: Act)
    requires Inv(s)
    ensures Inv(Applied(s, act))
    ensures s.monitor.drift.Some? ==> Applied(s, act).monitor.drift.Some?
  {
    match act
    case Occurs(event) => PendingChangesAreNoted(s.monitor, event);
    case Runs(turn, ok) => TurnKeepsInv(s, turn, ok);
  }

  lemma {:induction false} InvHolds(s: State, acts: seq<Act>)
    requires Starts(s)
    ensures Inv(After(s, acts))
  {
    if acts != [] {
      InvHolds(s, acts[..|acts| - 1]);
      ActKeepsInv(After(s, acts[..|acts| - 1]), acts[|acts| - 1]);
    }
  }

  lemma AfterPrefix(s: State, acts: seq<Act>, k: nat)
    requires k < |acts|
    ensures After(s, acts[..k + 1]) == Applied(After(s, acts[..k]), acts[k])
  {
    assert acts[..k + 1][..k] == acts[..k];
  }

  /** A drift, once set, is never cleared. */
  lemma {:induction false} DriftIsSticky(s: State, acts: seq<Act>, k: nat)
    requires Starts(s) && k <= |acts| && After(s, acts[..k]).monitor.drift.Some?
    ensures After(s, acts).monitor.drift.Some?
    decreases |acts| - k
  {
    if k < |acts| {
      AfterPrefix(s, acts, k);
      InvHolds(s, acts[..k]);
      ActKeepsInv(After(s, acts[..k]), acts[k]);
      DriftIsSticky(s, acts, k + 1);
    } else {
      assert acts[..k] == acts;
    }
  }

  /** At step `k` a window is open and a network, navigation, DOM or stylesheet event occurs. */
  predicate DisturbedAt(s: State, acts: seq<Act>, k: nat)
    requires k < |acts|
  {
    After(s, acts[..k]).monitor.window && !After(s, acts[..k]).pc.Failed? && acts[k].Occurs? && Drifts(acts[k].event)
  }

  /** The drift flag says exactly whether any event disturbed a window. */
  lemma {:induction false} DriftIsExact(s: State, acts: seq<Act>)
    requires Starts(s)
    ensures After(s, acts).monitor.drift.Some? <==> exists k :: 0 <= k < |acts| && DisturbedAt(s, acts, k)
  {
    if acts != [] {
      hide Applied;
      hide Inv;
      hide Drifts;
      var n := |acts| - 1;
      var front := acts[..n];
      DriftIsExact(s, front);
      InvHolds(s, front);
      forall k | 0 <= k < n
        ensures DisturbedAt(s, front, k) == DisturbedAt(s, acts, k)
      {
        assert front[..k] == acts[..k];
      }
      LastActDrifts(After(s, front), acts[n]);
      if After(s, front).monitor.drift.Some? {
        var k :| 0 <= k < |front| && DisturbedAt(s, front, k);
        assert DisturbedAt(s, acts, k);
      } else if After(s, acts).monitor.drift.Some? {
        assert DisturbedAt(s, acts, n);
      }
    }
  }

  lemma LastActDrifts(s: State, act: Act)
    requires Inv(s)
    ensures Applied(s, act).monitor.drift.Some?
            <==> s.monitor.drift.Some? || (s.monitor.window && !s.pc.Failed? && act.Occurs? && Drifts(act.event))
  {
    match act
    case Occurs(event) => PendingChangesAreNoted(s.monitor, event);
    case Runs(turn, ok) => TurnKeepsInv(s, turn, ok);
  }

  /**
   A run that emits a result saw no network, navigation, DOM or stylesheet event
   while a window was open, and all the while the pending set was the frozen one;
   in the capture window that is the set reported with the result.
   */
  lemma EmittedRunsAreQuiet(s: State, acts: seq<Act>, k: nat)
    requires Starts(s) && After(s, acts).pc.Emitted? && k < |acts|
    requires After(s, acts[..k]).monitor.window
    ensures !DisturbedAt(s, acts, k)
    ensures After(s, acts[..k]).monitor.frozen == Some(After(s, acts[..k]).monitor.pending)
    ensures acts[k].Occurs? ==>
              && After(s, acts[..k + 1]).monitor.pending == After(s, acts[..k]).monitor.pending
              && After(s, acts[..k + 1]).monitor.epoch == After(s, acts[..k]).monitor.epoch
    ensures InCapture(After(s, acts[..k]).pc) ==> After(s, acts[..k]).monitor.pending == After(s, acts).captured
  {
    InvHolds(s, acts);
    InvHolds(s, acts[..k]);
    if After(s, acts[..k]).monitor.drift.Some? {
      DriftIsSticky(s, acts, k);
    }
    DriftIsExact(s, acts);
    AfterPrefix(s, acts, k);
    if acts[k].Occurs? {
      PendingChangesAreNoted(After(s, acts[..k]).monitor, acts[k].event);
    }
    StaysUnfailed(s, acts, k);
    if InCapture(After(s, acts[..k]).pc) {
      CapturedStays(s, acts, k);
    }
  }

  lemma {:induction false} StaysUnfailed(s: State, acts: seq<Act>, k: nat)
    requires k <= |acts| && !After(s, acts).pc.Failed?
    ensures !After(s, acts[..k]).pc.Failed?
    decreases |acts| - k
  {
    if k < |acts| {
      StaysUnfailed(s, acts, k + 1);
      AfterPrefix(s, acts, k);
    } else {
      assert acts[..k] == acts;
    }
  }

  /** Once the capture window has opened, the reported set no longer changes. */
  lemma {:induction false} CapturedStays(s: State, acts: seq<Act>, k: nat)
    requires k <= |acts| && !After(s, acts).pc.Failed?
    requires InCapture(After(s, acts[..k]).pc) || PastCapture(After(s, acts[..k]).pc)
    ensures After(s, acts).captured == After(s, acts[..k]).captured
    decreases |acts| - k
  {
    if k < |acts| {
      AfterPrefix(s, acts, k);
      StaysUnfailed(s, acts, k + 1);
      CaptureGoesOn(After(s, acts[..k]), acts[k]);
      hide After;
      hide Applied;
      CapturedStays(s, acts, k + 1);
    } else {
      assert acts[..k] == acts;
    }
  }

  lemma CaptureGoesOn(s: State, act: Act)
    requires InCapture(s.pc) || PastCapture(s.pc)
    requires !Applied(s, act).pc.Failed?
    ensures InCapture(Applied(s, act).pc) || PastCapture(Applied(s, act).pc)
    ensures Applied(s, act).captured == s.captured
  {
    hide Handled;
    hide Healthy;
    hide Idle;
  }

  // ---------------------------------------------------------- what a run does

  /** How far the main sequence has come; the five samples and both checks after them are stages of their own. */
  function Stage(pc: Pc): nat {
    match pc
    case Sampling(taken) => if taken < SAMPLES then 1 + taken else SAMPLES
    case Settling => 6
    case CaptureClosing(_) => 7
    case Probing => 8
    case ProbeSettling => 9
    case ProbeClosing(_) => 10
    case Confirming => 11
    case Emitted => 12
    case _ => 0
  }

  /** No stage is skipped: an emitted result took five samples in an open window and passed every check after them. */
  lemma {:induction false} VisitsEveryStage(s: State, acts: seq<Act>, stage: nat)
    requires Starts(s) && stage <= Stage(After(s, acts).pc)
    ensures exists k :: 0 <= k <= |acts| && Stage(After(s, acts[..k]).pc) == stage
  {
    if Stage(After(s, acts).pc) == stage {
      assert acts[..|acts|] == acts;
    } else {
      var front := acts[..|acts| - 1];
      OneStageAtATime(After(s, front), acts[|acts| - 1]);
      VisitsEveryStage(s, front, stage);
      var k :| 0 <= k <= |front| && Stage(After(s, front[..k]).pc) == stage;
      assert front[..k] == acts[..k];
    }
  }

  lemma OneStageAtATime(s: State, act: Act)
    ensures Stage(Applied(s, act).pc) <= Stage(s.pc) + 1
  {
  }

  function PcAt(stage: nat, epoch: nat): Pc
    requires 1 <= stage <= 12
  {
    if stage <= SAMPLES then Sampling(stage - 1)
    else if stage == 6 then Settling
    else if stage == 7 then CaptureClosing(epoch)
    else if stage == 8 then Probing
    else if stage == 9 then ProbeSettling
    else if stage == 10 then ProbeClosing(epoch)
    else if stage == 11 then Confirming
    else Emitted
  }

  function StateAt(s: State, stage: nat): State
    requires 1 <= stage <= 12
  {
    var m := s.monitor;
    State(PcAt(stage, m.epoch), m.(frozen := Some(m.pending), window := stage < 8), m.pending, s.settleMs)
  }

  lemma OnwardFrom(s: State, stage: nat)
    requires Healthy(s.monitor) && Idle(s.monitor, true) && 1 <= stage < 12
    ensures MainTurn(StateAt(s, stage), Onward, true) == StateAt(s, stage + 1)
  {
  }

  /** Nothing else is required: on a healthy, idle, settled page whose checks pass, twelve onward turns emit. */
  lemma {:induction false} UndisturbedRunEmits(s: State, acts: seq<Act>)
    requires Starts(s) && Healthy(s.monitor) && Idle(s.monitor, true) && Settled(s.monitor, s.settleMs)
    requires 1 <= |acts| <= 12 && forall k :: 0 <= k < |acts| ==> acts[k] == Runs(Onward, true)
    ensures After(s, acts) == StateAt(s, |acts|)
    ensures |acts| == 12 ==> After(s, acts).pc.Emitted? && After(s, acts).captured == s.monitor.pending
  {
    var n := |acts| - 1;
    if n == 0 {
      assert After(s, acts[..0]) == s;
    } else {
      UndisturbedRunEmits(s, acts[..n]);
      OnwardFrom(s, n);
    }
  }

  // ------------------------------------------------- what the checks have seen

  /** The event is one that stores a handler error. */
  predicate Fails(event: Event) {
    match event
    case FetchHandled(_, failed) => failed
    case RequestSent(_, malformed, _, _) => malformed
    case SocketCreated(_, malformed, _) => malformed
    case UnsupportedTarget => true
    case TargetHandled(failed) => failed
    case _ => false
  }

  /** The event is a request or socket outside the allowed origins. */
  predicate Violates(event: Event) {
    match event
    case FetchHandled(blocked, _) => blocked
    case RequestSent(_, malformed, violates, _) => !malformed && violates
    case SocketCreated(_, malformed, allowed) => !malformed && !allowed
    case _ => false
  }

  /** The event is a request that is retained as evidence. */
  predicate Retains(event: Event) {
    (event.RequestSent? || event.SocketCreated?) && !event.malformed
  }

  function RetainedBy(acts: seq<Act>): nat {
    if acts == [] then 0
    else
      var last := acts[|acts| - 1];
      RetainedBy(acts[..|acts| - 1]) + if last.Occurs? && Retains(last.event) then 1 else 0
  }

  lemma HandledCounts(m: Monitor, event: Event)
    ensures var after := Handled(m, event);
            && after.now >= m.now
            && after.handlerFailed == (m.handlerFailed || Fails(event))
            && after.violation == (if m.violation.None? && Violates(event) then Some(Instant(m.now)) else m.violation)
            && after.requests ==
               (if Retains(event) && m.requests < MAX_NETWORK_REQUESTS then m.requests + 1 else m.requests)
            && after.overflow == (m.overflow || (Retains(event) && m.requests >= MAX_NETWORK_REQUESTS))
  {
    NotedCounts(m);
    RetainedCounts(Noted(m));
    ViolatedCounts(m, Violates(event));
    ViolatedCounts(Retained(Noted(m)), Violates(event));
    hide Noted;
    hide Retained;
    hide Violated;
    if event.RequestSent? || event.SocketCreated? {
      SentCounts(m, event);
    }
  }

  /** The counters that the checks look at. */
  predicate SameCounts(a: Monitor, b: Monitor) {
    && a.now == b.now && a.handlerFailed == b.handlerFailed && a.violation == b.violation
    && a.requests == b.requests && a.overflow == b.overflow
  }

  lemma NotedCounts(m: Monitor)
    ensures SameCounts(Noted(m), m)
  {
  }

  lemma RetainedCounts(m: Monitor)
    ensures var after := Retained(m);
            && after.now == m.now && after.handlerFailed == m.handlerFailed && after.violation == m.violation
            && after.requests == (if m.requests < MAX_NETWORK_REQUESTS then m.requests + 1 else m.requests)
            && after.overflow == (m.overflow || m.requests >= MAX_NETWORK_REQUESTS)
  {
  }

  lemma ViolatedCounts(m: Monitor, violates: bool)
    ensures SameCounts(Violated(m, violates),
                       m.(violation := if m.violation.None? && violates then Some(Instant(m.now)) else m.violation))
  {
  }

  /** A malformed event is noted and fails; any other is noted, retained and checked. */
  lemma SentCounts(m: Monitor, event: Event)
    requires event.RequestSent? || event.SocketCreated?
    ensures SameCounts(Handled(m, event), if event.malformed then Noted(m).(handlerFailed := true)
                                          else Violated(Retained(Noted(m)), Violates(event)))
  {
    hide Noted;
    hide Retained;
    hide Violated;
  }

  lemma TurnCounts(s: State, turn: Turn, ok: bool)
    ensures var m, after := s.monitor, MainTurn(s, turn, ok).monitor;
            && after.now == m.now && after.handlerFailed == m.handlerFailed && after.violation == m.violation
            && after.requests == m.requests && after.overflow == m.overflow
  {
  }

  /** Nothing has happened yet. */
  predicate Unused(m: Monitor) {
    !m.handlerFailed && !m.overflow && m.requests == 0 && m.violation.None?
  }

  predicate Ended(pc: Pc) {
    pc.Emitted? || pc.Failed?
  }

  predicate FailsAt(acts: seq<Act>, k: nat)
    requires k < |acts|
  {
    acts[k].Occurs? && Fails(acts[k].event)
  }

  predicate ViolatesAt(acts: seq<Act>, k: nat)
    requires k < |acts|
  {
    acts[k].Occurs? && Violates(acts[k].event)
  }

  function ClockAt(s: State, acts: seq<Act>, k: nat): nat
    requires k <= |acts|
  {
    After(s, acts[..k]).monitor.now
  }

  lemma LastActCounts(s: State, acts: seq<Act>)
    requires acts != [] && !Ended(After(s, acts).pc)
    ensures var n := |acts| - 1;
            var m, after := After(s, acts[..n]).monitor, After(s, acts).monitor;
            && !Ended(After(s, acts[..n]).pc) && after.now >= m.now
            && after.handlerFailed == (m.handlerFailed || FailsAt(acts, n))
            && after.violation ==
               (if m.violation.None? && ViolatesAt(acts, n) then Some(Instant(m.now)) else m.violation)
            && (var retains := acts[n].Occurs? && Retains(acts[n].event);
                && after.requests ==
                   (if retains && m.requests < MAX_NETWORK_REQUESTS then m.requests + 1 else m.requests)
                && after.overflow == (m.overflow || (retains && m.requests >= MAX_NETWORK_REQUESTS)))
  {
    var n := |acts| - 1;
    var before := After(s, acts[..n]);
    hide Handled;
    hide MainTurn;
    if acts[n].Occurs? {
      HandledCounts(before.monitor, acts[n].event);
    } else {
      TurnCounts(before, acts[n].turn, acts[n].ok);
    }
  }

  /** A handler error is stored exactly when some event failed. */
  lemma {:induction false} FailureRemembered(s: State, acts: seq<Act>)
    requires Unused(s.monitor) && !Ended(After(s, acts).pc)
    ensures After(s, acts).monitor.handlerFailed <==> exists k :: 0 <= k < |acts| && FailsAt(acts, k)
  {
    if acts != [] {
      var n := |acts| - 1;
      var front := acts[..n];
      LastActCounts(s, acts);
      hide After;
      hide FailsAt;
      FailureRemembered(s, front);
      OneMoreAct(acts);
    }
  }

  lemma OneMoreAct(acts: seq<Act>)
    requires acts != []
    ensures var n := |acts| - 1;
            (exists k :: 0 <= k < |acts| && FailsAt(acts, k))
            <==> FailsAt(acts, n) || exists k :: 0 <= k < n && FailsAt(acts[..n], k)
  {
    hide Fails;
    var n := |acts| - 1;
    var front := acts[..n];
    assert forall k :: 0 <= k < n ==> FailsAt(front, k) == FailsAt(acts, k);
    if k :| 0 <= k < n && FailsAt(front, k) {
      assert FailsAt(acts, k);
    }
  }

  /** The retained requests are counted up to the limit, and more of them overflow. */
  lemma {:induction false} RequestsRemembered(s: State, acts: seq<Act>)
    requires Unused(s.monitor) && !Ended(After(s, acts).pc)
    ensures var m, n := After(s, acts).monitor, RetainedBy(acts);
            && m.requests == (if n <= MAX_NETWORK_REQUESTS then n else MAX_NETWORK_REQUESTS)
            && (m.overflow <==> n > MAX_NETWORK_REQUESTS)
  {
    if acts != [] {
      LastActCounts(s, acts);
      hide After;
      hide Retains;
      RequestsRemembered(s, acts[..|acts| - 1]);
    }
  }

  /** Any violation is stored, at a time not after it. */
  lemma {:induction false} ViolationRemembered(s: State, acts: seq<Act>, k: nat)
    requires !Ended(After(s, acts).pc) && k < |acts| && ViolatesAt(acts, k)
    requires Dated(s)
    ensures var m := After(s, acts).monitor; m.violation.Some? && m.violation.value.ms <= ClockAt(s, acts, k)
  {
    hide Applied;
    hide Violates;
    hide Retains;
    hide Fails;
    var n := |acts| - 1;
    var front := acts[..n];
    LastActCounts(s, acts);
    if k < n {
      assert front[..k] == acts[..k];
      ViolationRemembered(s, front, k);
    } else {
      ViolationIsPast(s, front);
    }
  }

  /** A violation in the monitor is not of the future. */
  predicate Dated(s: State) {
    s.monitor.violation.Some? ==> s.monitor.violation.value.ms <= s.monitor.now
  }

  lemma {:induction false} ViolationIsPast(s: State, acts: seq<Act>)
    requires Dated(s) && !Ended(After(s, acts).pc)
    ensures Dated(After(s, acts))
  {
    if acts != [] {
      LastActCounts(s, acts);
      ViolationIsPast(s, acts[..|acts| - 1]);
    }
  }

  /** Until act `k` no handler failed, the requests fit the limit, and no violation is 500 ms old. */
  ghost predicate CleanUpTo(s: State, acts: seq<Act>, k: nat)
    requires k <= |acts|
  {
    && RetainedBy(acts[..k]) <= MAX_NETWORK_REQUESTS
    && forall j :: 0 <= j < k ==>
         !FailsAt(acts, j)
         && (ViolatesAt(acts, j) ==> ClockAt(s, acts, k) < ClockAt(s, acts, j) + NETWORK_POLICY_OBSERVATION_MS)
  }

  lemma HealthyIsClean(s: State, acts: seq<Act>, k: nat)
    requires Unused(s.monitor) && k <= |acts| && !Ended(After(s, acts[..k]).pc)
    requires Healthy(After(s, acts[..k]).monitor)
    ensures CleanUpTo(s, acts, k)
  {
    var front := acts[..k];
    FailureRemembered(s, front);
    RequestsRemembered(s, front);
    forall j | 0 <= j < k
      ensures !FailsAt(acts, j)
      ensures ViolatesAt(acts, j) ==> ClockAt(s, acts, k) < ClockAt(s, acts, j) + NETWORK_POLICY_OBSERVATION_MS
    {
      assert FailsAt(front, j) == FailsAt(acts, j) && ViolatesAt(front, j) == ViolatesAt(acts, j);
      if ViolatesAt(acts, j) {
        ViolationRemembered(s, front, j);
        assert front[..j] == acts[..j];
      }
    }
  }

  /**
   A run that emits was clean at its last network check, after the capture
   window: up to there no handler failed, at most 2000 requests were retained
   and every violation was less than 500 ms old.
   */
  lemma {:induction false} EmittedRunsAreClean(s: State, acts: seq<Act>)
    requires Starts(s) && Unused(s.monitor) && (After(s, acts).pc.Emitted? || After(s, acts).pc.Confirming?)
    ensures exists k :: 0 <= k < |acts| && After(s, acts[..k]).pc.ProbeClosing? && CleanUpTo(s, acts, k)
  {
    var n := |acts| - 1;
    var front := acts[..n];
    assert Applied(After(s, front), acts[n]) == After(s, acts);
    IntoConfirming(After(s, front), acts[n]);
    hide After;
    hide Applied;
    hide CleanUpTo;
    if After(s, front).pc.ProbeClosing? {
      HealthyIsClean(s, acts, n);
    } else {
      EmittedRunsAreClean(s, front);
      var k :| 0 <= k < |front| && After(s, front[..k]).pc.ProbeClosing? && CleanUpTo(s, front, k);
      CleanInLonger(s, acts, n, k);
    }
  }

  lemma IntoConfirming(s: State, act: Act)
    requires Applied(s, act).pc.Emitted? || Applied(s, act).pc.Confirming?
    ensures (s.pc.ProbeClosing? && Healthy(s.monitor)) || s.pc.Emitted? || s.pc.Confirming?
  {
    hide Handled;
    hide Healthy;
    hide Idle;
  }

  lemma CleanInLonger(s: State, acts: seq<Act>, n: nat, k: nat)
    requires k <= n <= |acts| && CleanUpTo(s, acts[..n], k)
    ensures acts[..n][..k] == acts[..k] && CleanUpTo(s, acts, k)
  {
    var front := acts[..n];
    assert front[..k] == acts[..k];
    forall j | 0 <= j < k
      ensures FailsAt(front, j) == FailsAt(acts, j) && ViolatesAt(front, j) == ViolatesAt(acts, j)
      ensures ClockAt(s, front, j) == ClockAt(s, acts, j)
    {
      assert front[..j] == acts[..j];
    }
  }

  /** After the last check nothing is checked: a request blocked then is not raised, and the run emits. */
  lemma LateViolationEmits(s: State, acts: seq<Act>)
    requires After(s, acts).pc.Confirming? && After(s, acts).monitor.violation.None?
    ensures var late := acts + [Occurs(RequestPaused), Occurs(FetchHandled(true, false)), Runs(Onward, true)];
            After(s, late).pc.Emitted? && After(s, late).monitor.violation.Some?
  {
    var first := acts + [Occurs(RequestPaused)];
    var second := first + [Occurs(FetchHandled(true, false))];
    var late := acts + [Occurs(RequestPaused), Occurs(FetchHandled(true, false)), Runs(Onward, true)];
    assert late == second + [Runs(Onward, true)];
    AfterOneMore(s, acts, Occurs(RequestPaused));
    AfterOneMore(s, first, Occurs(FetchHandled(true, false)));
    AfterOneMore(s, second, Runs(Onward, true));
    HandledCounts(After(s, acts).monitor, RequestPaused);
    HandledCounts(After(s, first).monitor, FetchHandled(true, false));
    hide After;
    hide Handled;
  }

  lemma AfterOneMore(s: State, acts: seq<Act>, act: Act)
    ensures After(s, acts + [act]) == Applied(After(s, acts), act)
  {
    assert (acts + [act])[..|acts|] == acts;
  }

  // ---------------------------------------------------- the shared variables

  lemma SimpleEvents(m: Monitor)
    ensures Handled(m, SocketFrame) == Noted(m)
    ensures Handled(m, UnsupportedTarget) == m.(handlerFailed := true)
    ensures Handled(m, Navigated) == Drifted(m, NavigationDrift)
    ensures Handled(m, DocumentChanged) == Drifted(m, DocumentDrift)
  {
  }

  /** The variables the handlers update in place; `View` is the monitor they make up. */
  class PageMonitor {
    var now: nat
    var networkEpoch: nat
    var lastNetworkActivity: nat
    var criticalWindow: bool
    var criticalDrift: Option<Drift>
    var handlerFailed: bool
    var networkOverflow: bool
    var requestCount: nat
    var violation: Option<Instant>
    var pendingRequests: set<Id>
    var frozenPending: Option<set<Id>>
    var pendingWebSockets: set<Id>
    var activeFetchHandlers: nat
    var activeTargetHandlers: nat

    function View(): Monitor
      reads this
    {
      Monitor(now, networkEpoch, lastNetworkActivity, criticalWindow, criticalDrift, handlerFailed, networkOverflow,
              requestCount, violation, pendingRequests, frozenPending, pendingWebSockets,
              activeFetchHandlers, activeTargetHandlers)
    }

    constructor (now: nat)
      ensures Starts(State(Preparing(false), View(), {}, 0)) && Unused(View())
      ensures View().now == now && View().pending == {}
    {
      this.now := now;
      networkEpoch := 0;
      lastNetworkActivity := now;
      criticalWindow := false;
      criticalDrift := None;
      handlerFailed, networkOverflow := false, false;
      requestCount := 0;
      violation := None;
      pendingRequests, frozenPending, pendingWebSockets := {}, None, {};
      activeFetchHandlers, activeTargetHandlers := 0, 0;
    }

    method NoteDrift(drift: Drift)
      modifies this
      ensures View() == Drifted(old(View()), drift)
    {
      if criticalWindow && criticalDrift.None? {
        criticalDrift := Some(drift);
      }
    }

    /** The epoch grows; inside a window a drift is set afterwards, and one that was set stays as it was. */
    method NoteNetworkActivity()
      modifies this
      ensures View() == Noted(old(View()))
      ensures networkEpoch > old(networkEpoch)
      ensures criticalWindow ==> criticalDrift.Some?
      ensures old(criticalDrift).Some? || !criticalWindow ==> criticalDrift == old(criticalDrift)
      ensures pendingRequests == old(pendingRequests) && frozenPending == old(frozenPending)
    {
      networkEpoch := networkEpoch + 1;
      lastNetworkActivity := now;
      NoteDrift(NetworkDrift);
    }

    method RetainRequest()
      modifies this
      ensures View() == Retained(old(View()))
    {
      if requestCount >= MAX_NETWORK_REQUESTS {
        networkOverflow := true;
      } else {
        requestCount := requestCount + 1;
      }
    }

    method RetainViolation()
      modifies this
      ensures View() == Violated(old(View()), true)
    {
      if violation.None? {
        violation := Some(Instant(now));
      }
    }

    method OnRequestSent(id: Id, malformed: bool, violates: bool, completion: Completion)
      modifies this
      ensures View() == Handled(old(View()), RequestSent(id, malformed, violates, completion))
    {
      NoteNetworkActivity();
      if malformed {
        handlerFailed := true;
      } else {
        RetainRequest();
        if violates {
          RetainViolation();
        }
      }
      match completion
      case Untracked =>
      case Tracked => pendingRequests := pendingRequests + {id};
      case Bootstrap(parents) => pendingRequests := pendingRequests - parents;
    }

    method OnSocketCreated(id: Id, malformed: bool, allowed: bool)
      modifies this
      ensures View() == Handled(old(View()), SocketCreated(id, malformed, allowed))
    {
      NoteNetworkActivity();
      if malformed {
        handlerFailed := true;
      } else {
        RetainRequest();
        if !allowed {
          RetainViolation();
        } else {
          pendingWebSockets := pendingWebSockets + {id};
        }
      }
    }

    method OnRequestDone(ids: set<Id>)
      modifies this
      ensures View() == Handled(old(View()), RequestDone(ids))
    {
      NoteNetworkActivity();
      pendingRequests := pendingRequests - ids;
    }

    method OnTargetDetached(requestIds: set<Id>, socketIds: set<Id>)
      modifies this
      ensures View() == Handled(old(View()), TargetDetached(requestIds, socketIds))
    {
      NoteNetworkActivity();
      pendingRequests := pendingRequests - requestIds;
      pendingWebSockets := pendingWebSockets - socketIds;
    }

    method Advance(ms: nat)
      modifies this
      ensures View() == Handled(old(View()), Tick(ms))
    {
      now := now + ms;
    }

    method OnRequestPaused()
      modifies this
      ensures View() == Handled(old(View()), RequestPaused)
    {
      NoteNetworkActivity();
      activeFetchHandlers := activeFetchHandlers + 1;
    }

    method OnSocketHandshake(id: Id, known: bool)
      modifies this
      ensures View() == Handled(old(View()), SocketHandshake(id, known))
    {
      NoteNetworkActivity();
      if known {
        pendingWebSockets := pendingWebSockets + {id};
      }
    }

    method OnSocketSettled(id: Id)
      modifies this
      ensures View() == Handled(old(View()), SocketSettled(id))
    {
      NoteNetworkActivity();
      pendingWebSockets := pendingWebSockets - {id};
    }

    method OnTargetAttached(internal: bool)
      modifies this
      ensures View() == Handled(old(View()), if internal then InternalTarget else TargetAttached)
    {
      if !internal {
        NoteNetworkActivity();
      }
      activeTargetHandlers := activeTargetHandlers + 1;
    }

    method OnFetchHandled(blocked: bool, failed: bool)
      modifies this
      ensures View() == Handled(old(View()), FetchHandled(blocked, failed))
    {
      if blocked {
        RetainViolation();
      }
      if failed {
        handlerFailed := true;
      }
      if activeFetchHandlers > 0 {
        activeFetchHandlers := activeFetchHandlers - 1;
      }
    }

    method OnTargetHandled(failed: bool)
      modifies this
      ensures View() == Handled(old(View()), TargetHandled(failed))
    {
      if failed {
        handlerFailed := true;
      }
      if activeTargetHandlers > 0 {
        activeTargetHandlers := activeTargetHandlers - 1;
      }
    }

    /** Any handler; what one does within a window leaves a drift behind. */
    method Handle(event: Event)
      modifies this
      ensures View() == Handled(old(View()), event)
      ensures criticalWindow == old(criticalWindow)
      ensures criticalWindow && Drifts(event) ==> criticalDrift.Some?
      ensures criticalWindow && criticalDrift.None? ==> pendingRequests == old(pendingRequests)
    {
      PendingChangesAreNoted(View(), event);
      SimpleEvents(View());
      hide Handled;
      match event
      case Tick(ms) => Advance(ms);
      case RequestPaused => OnRequestPaused();
      case FetchHandled(blocked, failed) => OnFetchHandled(blocked, failed);
      case RequestSent(id, malformed, violates, completion) => OnRequestSent(id, malformed, violates, completion);
      case RequestDone(ids) => OnRequestDone(ids);
      case SocketCreated(id, malformed, allowed) => OnSocketCreated(id, malformed, allowed);
      case SocketHandshake(id, known) => OnSocketHandshake(id, known);
      case SocketSettled(id) => OnSocketSettled(id);
      case SocketFrame => NoteNetworkActivity();
      case TargetAttached => OnTargetAttached(false);
      case InternalTarget => OnTargetAttached(true);
      case UnsupportedTarget => handlerFailed := true;
      case TargetHandled(failed) => OnTargetHandled(failed);
      case TargetDetached(requestIds, socketIds) => OnTargetDetached(requestIds, socketIds);
      case Navigated => NoteDrift(NavigationDrift);
      case DocumentChanged => NoteDrift(DocumentDrift);
    }

    method OpenWindow()
      modifies this
      ensures View() == Opened(old(View()))
    {
      frozenPending := Some(pendingRequests);
      criticalWindow := true;
    }

    predicate NetworkIdle(ok: bool)
      reads this
    {
      && ok && (frozenPending.Some? ==> pendingRequests == frozenPending.value)
      && |pendingWebSockets| == 0 && activeFetchHandlers == 0 && activeTargetHandlers == 0
    }

    method NetworkHealthy() returns (ok: bool)
      ensures ok == Healthy(View())
    {
      if handlerFailed || networkOverflow {
        return false;
      }
      if violation.Some? && now >= violation.value.ms + NETWORK_POLICY_OBSERVATION_MS {
        return false;
      }
      return criticalDrift.None?;
    }
  }

  /** The main sequence, with the variables it shares with the handlers. */
  class Probe {
    const monitor: PageMonitor
    const settleMs: nat
    var pc: Pc
    var captured: set<Id>

    function View(): State
      reads this, monitor
    {
      State(pc, monitor.View(), captured, settleMs)
    }

    constructor (now: nat, settleMs: nat)
      ensures fresh(monitor) && Starts(View()) && Unused(View().monitor)
    {
      var shared := new PageMonitor(now);
      this.monitor := shared;
      this.settleMs := settleMs;
      pc := Preparing(false);
      captured := {};
    }

    /** From one await to the next. */
    method Turn(turn: Turn, ok: bool)
      modifies this, monitor
      ensures View() == MainTurn(old(View()), turn, ok)
    {
      var healthy := monitor.NetworkHealthy();
      var idle := monitor.NetworkIdle(ok);
      var settled := monitor.now >= monitor.lastNetworkActivity + settleMs;
      assert idle == Idle(monitor.View(), ok) && settled == Settled(monitor.View(), settleMs);
      match pc
      case Preparing(taken) => Prepare(taken, turn, ok, healthy && idle && settled);
      case BaselineReady(epoch) =>
        if healthy && monitor.networkEpoch == epoch && idle && settled {
          monitor.OpenWindow();
          pc := BaselineSampling(0);
        } else {
          pc := Failed;
        }
      case BaselineSampling(taken) =>
        if !ok {
          pc := Failed;
        } else if !turn.Again? {
          pc := if taken + 1 < SAMPLES then BaselineSampling(taken + 1) else BaselineClosing(monitor.networkEpoch);
        }
      case BaselineClosing(epoch) =>
        if healthy && monitor.networkEpoch == epoch && idle {
          monitor.criticalWindow := false;
          monitor.frozenPending := None;
          pc := Preparing(true);
        } else {
          pc := Failed;
        }
      case CaptureClosing(epoch) =>
        if healthy && monitor.networkEpoch == epoch && ok {
          monitor.criticalWindow := false;
          pc := Probing;
        } else {
          pc := Failed;
        }
      case _ => Observe(turn, ok, healthy, idle);
    }

    /** Before the capture: wait on, take the focus baseline, or open the capture window. */
    method Prepare(taken: bool, turn: Turn, ok: bool, ready: bool)
      requires pc == Preparing(taken)
      requires ready == (Healthy(monitor.View()) && Idle(monitor.View(), ok) && Settled(monitor.View(), settleMs))
      modifies this, monitor
      ensures View() == MainTurn(old(View()), turn, ok)
    {
      match turn
      case Again =>
        if !ok {
          pc := Failed;
        }
      case Baseline => pc := if ok && !taken then BaselineReady(monitor.networkEpoch) else Failed;
      case Onward =>
        if ready {
          monitor.OpenWindow();
          captured := monitor.pendingRequests;
          pc := Sampling(0);
        } else {
          pc := Failed;
        }
    }

    /** The turns that leave the shared variables alone. */
    method Observe(turn: Turn, ok: bool, healthy: bool, idle: bool)
      requires !pc.Preparing? && !pc.BaselineReady? && !pc.BaselineSampling? && !pc.BaselineClosing?
      requires !pc.CaptureClosing?
      requires healthy == Healthy(monitor.View()) && idle == Idle(monitor.View(), ok)
      modifies this
      ensures View() == MainTurn(old(View()), turn, ok)
    {
      hide Healthy;
      hide Idle;
      match pc
      case Sampling(taken) =>
        if !ok {
          pc := Failed;
        } else if !turn.Again? {
          pc := if taken + 1 < SAMPLES then Sampling(taken + 1) else if healthy then Settling else Failed;
        }
      case Settling =>
        if !healthy {
          pc := Failed;
        } else if !turn.Again? {
          pc := if idle then CaptureClosing(monitor.networkEpoch) else Failed;
        }
      case Probing =>
        if !ok {
          pc := Failed;
        } else if !turn.Again? {
          pc := ProbeSettling;
        }
      case ProbeSettling =>
        if !healthy {
          pc := Failed;
        } else if !turn.Again? {
          pc := if idle then ProbeClosing(monitor.networkEpoch) else Failed;
        }
      case ProbeClosing(epoch) => pc := if healthy && monitor.networkEpoch == epoch then Confirming else Failed;
      case Confirming => pc := if ok then Emitted else Failed;
      case _ =>
    }

    /** A whole run in place, handlers and turns as they come; when it emits, no event has disturbed a window. */
    method Play(acts: seq<Act>)
      requires Starts(View())
      modifies this, monitor
      ensures View() == After(old(View()), acts)
      ensures pc.Emitted? ==> forall k :: 0 <= k < |acts| ==> !DisturbedAt(old(View()), acts, k)
    {
      ghost var start := View();
      for i := 0 to |acts|
        invariant View() == After(start, acts[..i])
      {
        AfterPrefix(start, acts, i);
        if pc.Emitted? || pc.Failed? {
        } else {
          match acts[i]
          case Occurs(event) => monitor.Handle(event);
          case Runs(turn, ok) => Turn(turn, ok);
        }
      }
      assert acts[..|acts|] == acts;
      InvHolds(start, acts);
      DriftIsExact(start, acts);
    }
  }
}

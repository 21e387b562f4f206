/** Run records and the closed run-state graph of the gateway (examples/run_gateway/domain.py).

    Times are integers (microseconds on one time line).  A Python exception is the `Err` case of
    a `Result`. */
module Domain {
  import opened Outcomes

  /** `StoreError` is whatever a call of the store raised. */
  datatype Error = StateTransitionError | ValueError | OverflowError | StoreError

  type Time = int
  datatype RunId = RunId(token: string)
  type CallId = nat

  type byte = b: int | 0 <= b < 256
  type Bytes = seq<byte>
  datatype KeyId = KeyId(name: string)
  datatype TenantId = TenantId(utf8: Bytes)

  datatype KeyedDigest = KeyedDigest(keyId: KeyId, digest: Bytes)

  datatype RunState =
    | Reserved
    | Dispatching
    | Running
    | Succeeded
    | Failed
    | CancellationRequested
    | Cancelled
    | Indeterminate

  datatype TerminalReason =
    | ObservedTerminal
    | TrajectorySucceeded
    | TrajectoryFailed
    | FunctionTimeout
    | Terminated
    | ExpiredBeforeDispatch
    | CancelledBeforeDispatch
    | DispatchAmbiguous
    | ProviderAmbiguous
    | ProviderErrorCap
    | CancellationErrorCap
    | CancellationAmbiguous
    | CancellationDeadline

  predicate IsTerminal(s: RunState) {
    s.Succeeded? || s.Failed? || s.Cancelled? || s.Indeterminate?
  }

  /** States that give the quota unit and the desktop claim back. */
  predicate IsReleasing(s: RunState) {
    s.Succeeded? || s.Failed? || s.Cancelled?
  }

  predicate LegalEdge(a: RunState, b: RunState) {
    match a
    case Reserved => b.Cancelled? || b.Dispatching?
    case Dispatching => b.Running? || b.Indeterminate?
    case Running => b.Succeeded? || b.Failed? || b.CancellationRequested? || b.Indeterminate?
    case CancellationRequested => b.Cancelled? || b.Succeeded? || b.Failed? || b.Indeterminate?
    case _ => false
  }

  datatype RunRecord = RunRecord(
    runId: RunId,
    tenantId: TenantId,
    idempotency: KeyedDigest,
    desktop: KeyedDigest,
    task: KeyedDigest,
    state: RunState,
    createdAt: Time,
    updatedAt: Time,
    deadlineAt: Time,
    stateChangedAt: Time,
    version: int,
    callId: Option<CallId>,
    reconcileAt: Option<Time>,
    providerErrors: int,
    cancelErrors: int,
    cancelRequestedAt: Option<Time>,
    cancelDeadlineAt: Option<Time>,
    cancelLastAttemptAt: Option<Time>,
    terminalReason: Option<TerminalReason>,
    terminalAt: Option<Time>)

  /** Everything `RunRecord.__post_init__` checks; a record that fails it cannot be built. */
  predicate WellFormed(r: RunRecord) {
    && r.createdAt <= r.deadlineAt
    && 0 <= r.version && 0 <= r.providerErrors && 0 <= r.cancelErrors
    && (IsTerminal(r.state) ==> r.terminalAt.Some? && r.terminalReason.Some? && r.reconcileAt.None?)
    && (!IsTerminal(r.state) ==> r.terminalAt.None? && r.terminalReason.None? && r.reconcileAt.Some?)
    && (r.cancelDeadlineAt.Some? ==>
          r.cancelRequestedAt.Some? && r.cancelRequestedAt.value <= r.cancelDeadlineAt.value)
    && (r.state.CancellationRequested? ==> r.cancelRequestedAt.Some? && r.cancelDeadlineAt.Some?)
    && (r.state.Reserved? || r.state.Dispatching? || r.state.Running? ==>
          r.cancelRequestedAt.None? && r.cancelDeadlineAt.None?)
  }

  /** Python's `replace` rebuilds the record, so it re-runs every check. */
  function Build(r: RunRecord): Result<RunRecord, Error> {
    if WellFormed(r) then Ok(r) else Err(ValueError)
  }

  function Reserve(runId: RunId, tenantId: TenantId, idempotency: KeyedDigest, desktop: KeyedDigest,
                   task: KeyedDigest, now: Time, deadlineAt: Time): Result<RunRecord, Error>
  {
    Build(RunRecord(runId, tenantId, idempotency, desktop, task, Reserved, now, now, deadlineAt, now,
                    0, None, Some(now), 0, 0, None, None, None, None, None))
  }

  /** The optional keyword arguments of `transition`. */
  datatype Changes = Changes(
    callId: Option<CallId>,
    reconcileAt: Option<Time>,
    providerErrors: Option<int>,
    cancelErrors: Option<int>,
    cancelRequestedAt: Option<Time>,
    cancelDeadlineAt: Option<Time>,
    cancelLastAttemptAt: Option<Time>,
    reason: Option<TerminalReason>)

  const NO_CHANGES := Changes(None, None, None, None, None, None, None, None)

  function Or<T>(a: Option<T>, b: Option<T>): Option<T> {
    if a.Some? then a else b
  }

  function OrValue<T>(a: Option<T>, b: T): T {
    if a.Some? then a.value else b
  }

  function Transition(r: RunRecord, next: RunState, now: Time, c: Changes): Result<RunRecord, Error> {
    if !LegalEdge(r.state, next) then
      Err(StateTransitionError)
    else if r.state.Dispatching? && next.Running? && c.callId.None? then
      Err(StateTransitionError)
    else if !(r.state.Dispatching? && next.Running?) && c.callId.Some? then
      Err(StateTransitionError)
    else if !IsTerminal(next) && c.reason.Some? then
      Err(StateTransitionError)
    else
      Build(r.(
        state := next,
        updatedAt := now,
        stateChangedAt := now,
        version := r.version + 1,
        callId := if c.callId.Some? then c.callId else r.callId,
        reconcileAt := if IsTerminal(next) then None else Or(c.reconcileAt, r.reconcileAt),
        providerErrors := OrValue(c.providerErrors, r.providerErrors),
        cancelErrors := OrValue(c.cancelErrors, r.cancelErrors),
        cancelRequestedAt := Or(c.cancelRequestedAt, r.cancelRequestedAt),
        cancelDeadlineAt := Or(c.cancelDeadlineAt, r.cancelDeadlineAt),
        cancelLastAttemptAt := Or(c.cancelLastAttemptAt, r.cancelLastAttemptAt),
        terminalReason := if IsTerminal(next) then Or(c.reason, Some(ObservedTerminal)) else None,
        terminalAt := if IsTerminal(next) then Some(now) else None))
  }

  function Reschedule(r: RunRecord, now: Time, reconcileAt: Time, providerErrors: Option<int>,
                      cancelErrors: Option<int>, cancelLastAttemptAt: Option<Time>): Result<RunRecord, Error>
  {
    if IsTerminal(r.state) then
      Err(StateTransitionError)
    else if reconcileAt < now then
      Err(ValueError)
    else
      Build(r.(
        updatedAt := now,
        version := r.version + 1,
        reconcileAt := Some(reconcileAt),
        providerErrors := OrValue(providerErrors, r.providerErrors),
        cancelErrors := OrValue(cancelErrors, r.cancelErrors),
        cancelLastAttemptAt := Or(cancelLastAttemptAt, r.cancelLastAttemptAt)))
  }

  /** What every write may do to a stored record, whoever computed it: the identity, bindings,
      creation time and deadline stay, the version grows by one, the state follows a legal edge or
      stays put in a live state, and the call identity is set exactly when a dispatch enters
      running. */
  predicate Successor(r: RunRecord, n: RunRecord) {
    && WellFormed(n)
    && n.runId == r.runId && n.tenantId == r.tenantId
    && n.idempotency == r.idempotency && n.desktop == r.desktop && n.task == r.task
    && n.createdAt == r.createdAt && n.deadlineAt == r.deadlineAt
    && n.version == r.version + 1
    && (LegalEdge(r.state, n.state) || (n.state == r.state && !IsTerminal(r.state)))
    && (if r.state.Dispatching? && n.state.Running? then n.callId.Some? else n.callId == r.callId)
  }

  lemma TransitionIsSuccessor(r: RunRecord, next: RunState, now: Time, c: Changes)
    requires Transition(r, next, now, c).Ok?
    ensures Successor(r, Transition(r, next, now, c).value)
    ensures LegalEdge(r.state, next)
  {
  }

  lemma RescheduleIsSuccessor(r: RunRecord, now: Time, at: Time, p: Option<int>, c: Option<int>, l: Option<Time>)
    requires Reschedule(r, now, at, p, c, l).Ok?
    ensures Successor(r, Reschedule(r, now, at, p, c, l).value)
    ensures !IsTerminal(r.state) && now <= at
  {
  }

  /** The closed graph, edge by edge. */
  lemma GraphIsClosed(a: RunState, b: RunState)
    ensures LegalEdge(a, b) <==> (a, b) in {
      (Reserved, Cancelled), (Reserved, Dispatching), (Dispatching, Running), (Dispatching, Indeterminate),
      (Running, Succeeded), (Running, Failed), (Running, CancellationRequested), (Running, Indeterminate),
      (CancellationRequested, Cancelled), (CancellationRequested, Succeeded), (CancellationRequested, Failed),
      (CancellationRequested, Indeterminate)}
  {
  }

  /** A transition is refused exactly for an edge outside the graph, a call identity that comes with any
      other edge than that into running or is missing there, or a reason without an end; any other
      failure is that of a record that cannot be built. */
  lemma TransitionRefuses(r: RunRecord, next: RunState, now: Time, c: Changes)
    ensures Transition(r, next, now, c) == Err(StateTransitionError) <==>
      || !LegalEdge(r.state, next)
      || (c.callId.Some? <==> !(r.state.Dispatching? && next.Running?))
      || (c.reason.Some? && !next.Succeeded? && !next.Failed? && !next.Cancelled? && !next.Indeterminate?)
    ensures Transition(r, next, now, c).Err? ==> Transition(r, next, now, c).error in {StateTransitionError, ValueError}
  {
  }

  lemma RescheduleRefuses(r: RunRecord, now: Time, at: Time, p: Option<int>, c: Option<int>, l: Option<Time>)
    ensures Reschedule(r, now, at, p, c, l) == Err(StateTransitionError) <==> IsTerminal(r.state)
    ensures !IsTerminal(r.state) && at < now ==> Reschedule(r, now, at, p, c, l) == Err(ValueError)
    ensures WellFormed(r) && !IsTerminal(r.state) && now <= at && OrValue(p, 0) >= 0 && OrValue(c, 0) >= 0 ==>
              Reschedule(r, now, at, p, c, l).Ok?
  {
  }

  /** How far along the closed graph a state is; terminal states are last. */
  function Rank(s: RunState): nat {
    match s
    case Reserved => 0
    case Dispatching => 1
    case Running => 2
    case CancellationRequested => 3
    case _ => 4
  }
}

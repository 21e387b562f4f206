/** The code a create or cancel request runs between two consecutive awaits
    (examples/run_gateway/service.py). */
module Service {
  import opened Outcomes
  import opened Domain
  import opened Store
  import opened Recovery

  /** Where a request waits.  `Answered` covers every reply, including the reload after a lost race:
      a reload only reads. */
  datatype ServiceAwait =
    | Answered
    | Failed500(error: Error)
    | AtExpiryWrite(record: RunRecord, next: RunRecord)
    | AtClaimDispatch(record: RunRecord, intent: IntentState, now: Time, reconcileAt: Time, desktop: Bytes, task: Bytes)
    | AtSpawn(record: RunRecord, desktop: Bytes, task: Bytes)
    | AtCallWrite(record: RunRecord, next: RunRecord)
    | AtAmbiguousWrite(record: RunRecord, next: RunRecord)
    | AtCancelWrite(record: RunRecord, next: RunRecord)

  /** `create_run`, once admission accepted it: `checkNow` decides on expiry, `now` is the next
      reading of the clock. */
  function AfterAdmission(p: RecoveryPolicy, r: RunRecord, intent: IntentState,
                          desktop: Bytes, task: Bytes, checkNow: Time, now: Time): ServiceAwait
  {
    if !r.state.Reserved? then
      Answered
    else if checkNow >= r.deadlineAt then
      match Transition(r, Cancelled, now, NO_CHANGES.(reason := Some(ExpiredBeforeDispatch)))
      case Err(e) => Failed500(e)
      case Ok(n) => AtExpiryWrite(r, n)
    else
      AtClaimDispatch(r, intent, now, Min(r.deadlineAt, now + p.dispatchStaleAfter), desktop, task)
  }

  /** The only winner of a dispatch claim goes on to spawn. */
  function AfterClaimDispatch(won: Option<RunRecord>, desktop: Bytes, task: Bytes): ServiceAwait {
    if won.None? then Answered else AtSpawn(won.value, desktop, task)
  }

  function SealAmbiguous(r: RunRecord, now: Time): ServiceAwait {
    match Transition(r, Indeterminate, now, NO_CHANGES.(reason := Some(DispatchAmbiguous)))
    case Err(e) => Failed500(e)
    case Ok(n) => AtAmbiguousWrite(r, n)
  }

  /** After `spawn` returned an identity, or raised (`None`). */
  function AfterSpawn(r: RunRecord, callId: Option<CallId>, wakeAt: Time, now: Time): ServiceAwait {
    if callId.None? then
      SealAmbiguous(r, now)
    else
      match Transition(r, Running, now, NO_CHANGES.(callId := callId, reconcileAt := Some(wakeAt)))
      case Err(_) => SealAmbiguous(r, now)
      case Ok(n) => AtCallWrite(r, n)
  }

  /** After the write of the identity: `stored` is false when the store refused it or raised. */
  function AfterCallWrite(r: RunRecord, stored: bool, now: Time): ServiceAwait {
    if stored then Answered else SealAmbiguous(r, now)
  }

  /** `cancel_run`, once the record was read. */
  function AfterCancelRead(p: RecoveryPolicy, r: RunRecord, requestedAt: Time, now: Time): ServiceAwait {
    if r.state.Reserved? then
      match Transition(r, Cancelled, now, NO_CHANGES.(reason := Some(CancelledBeforeDispatch)))
      case Err(e) => Failed500(e)
      case Ok(n) => AtCancelWrite(r, n)
    else if r.state.Running? then
      match Transition(r, CancellationRequested, now,
        NO_CHANGES.(reconcileAt := Some(requestedAt), cancelRequestedAt := Some(requestedAt),
                    cancelDeadlineAt := Some(requestedAt + p.cancellationGrace)))
      case Err(e) => Failed500(e)
      case Ok(n) => AtCancelWrite(r, n)
    else
      Answered
  }

  // ---------------------------------------------------------------- what every step keeps

  ghost predicate WriteOk(p: RecoveryPolicy, r: RunRecord, n: RunRecord) {
    RecordOk(p, r) && RecordOk(p, n) && Writable(r, n) && Spaced(p, r, n)
  }

  ghost predicate ServiceAwaitOk(p: RecoveryPolicy, a: ServiceAwait) {
    match a
    case Answered => true
    case Failed500(_) => false
    case AtExpiryWrite(r, n) => WriteOk(p, r, n) && r.state.Reserved? && n.state.Cancelled?
    case AtClaimDispatch(r, _, now, at, _, _) =>
      RecordOk(p, r) && r.state.Reserved? && at == Min(r.deadlineAt, now + p.dispatchStaleAfter)
    case AtSpawn(r, _, _) => RecordOk(p, r) && r.state.Dispatching?
    case AtCallWrite(r, n) => WriteOk(p, r, n) && r.state.Dispatching? && n.state.Running?
    case AtAmbiguousWrite(r, n) => WriteOk(p, r, n) && r.state.Dispatching? && n.state.Indeterminate?
    case AtCancelWrite(r, n) =>
      && WriteOk(p, r, n)
      && ((r.state.Reserved? && n.state.Cancelled?) || (r.state.Running? && n.state.CancellationRequested?))
  }

  lemma AfterAdmissionOk(p: RecoveryPolicy, r: RunRecord, intent: IntentState,
                         desktop: Bytes, task: Bytes, checkNow: Time, now: Time)
    requires RecordOk(p, r)
    ensures ServiceAwaitOk(p, AfterAdmission(p, r, intent, desktop, task, checkNow, now))
  {
  }

  lemma SealAmbiguousOk(p: RecoveryPolicy, r: RunRecord, now: Time)
    requires RecordOk(p, r) && r.state.Dispatching?
    ensures ServiceAwaitOk(p, SealAmbiguous(r, now)) && SealAmbiguous(r, now).AtAmbiguousWrite?
    ensures SealAmbiguous(r, now).record == r
  {
  }

  lemma AfterSpawnOk(p: RecoveryPolicy, r: RunRecord, callId: Option<CallId>, wakeAt: Time, now: Time)
    requires RecordOk(p, r) && r.state.Dispatching?
    ensures ServiceAwaitOk(p, AfterSpawn(r, callId, wakeAt, now))
    ensures callId.Some? <==> AfterSpawn(r, callId, wakeAt, now).AtCallWrite?
    ensures callId.Some? ==>
              AfterSpawn(r, callId, wakeAt, now).record == r && AfterSpawn(r, callId, wakeAt, now).next.callId == callId
    ensures callId.None? ==> AfterSpawn(r, callId, wakeAt, now) == SealAmbiguous(r, now)
  {
    SealAmbiguousOk(p, r, now);
  }

  lemma AfterCancelReadOk(p: RecoveryPolicy, r: RunRecord, requestedAt: Time, now: Time)
    requires ValidPolicy(p) && RecordOk(p, r)
    ensures ServiceAwaitOk(p, AfterCancelRead(p, r, requestedAt, now))
  {
  }
}

/** What each answer leads to, step by step, on whole records: which commit, with which state, reason,
    counters and due time, and when none.  The tables speak of records, clock readings and answers, not
    of the functions that compute the next step. */
module Decisions {
  import opened Outcomes
  import opened Domain
  import opened Store
  import opened Recovery
  import opened Service

  // ---------------------------------------------------------------- records

  /** The run ends in this state, for this reason; nothing else of it changes. */
  predicate Ended(r: RunRecord, n: RunRecord, state: RunState, reason: TerminalReason, now: Time) {
    n == r.(state := state, version := r.version + 1, updatedAt := now, stateChangedAt := now, reconcileAt := None,
            terminalReason := Some(reason), terminalAt := Some(now))
  }

  /** The run keeps its state and is due again at `due`, with these error counts and this last attempt to
      cancel it. */
  predicate Postponed(r: RunRecord, n: RunRecord, due: Time, providerErrors: int, cancelErrors: int,
                      attempt: Option<Time>, now: Time)
  {
    n == r.(version := r.version + 1, updatedAt := now, reconcileAt := Some(due), providerErrors := providerErrors,
            cancelErrors := cancelErrors, cancelLastAttemptAt := attempt)
  }

  /** The run's cancellation is requested at `at`, and bounded from then on. */
  predicate AskedToCancel(p: RecoveryPolicy, r: RunRecord, n: RunRecord, at: Time, now: Time) {
    n == r.(state := CancellationRequested, version := r.version + 1, updatedAt := now, stateChangedAt := now,
            reconcileAt := Some(at), cancelRequestedAt := Some(at), cancelDeadlineAt := Some(at + p.cancellationGrace),
            terminalReason := None, terminalAt := None)
  }

  /** The run is running under this call, and due at `wakeAt`. */
  predicate StartedUnder(r: RunRecord, n: RunRecord, id: CallId, wakeAt: Time, now: Time) {
    n == r.(state := Running, version := r.version + 1, updatedAt := now, stateChangedAt := now, callId := Some(id),
            reconcileAt := Some(wakeAt))
  }

  // ---------------------------------------------------------------- commits of a pass

  predicate Seals(a: Await, c: ReconcileClaim, state: RunState, reason: TerminalReason, now: Time, after: After) {
    a.AtCommit? && a.claim == c && a.after == after && Ended(c.record, a.next, state, reason, now)
  }

  predicate Postpones(a: Await, c: ReconcileClaim, due: Time, providerErrors: int, now: Time, after: After) {
    var r := c.record;
    && a.AtCommit? && a.claim == c && a.after == after
    && Postponed(r, a.next, due, providerErrors, r.cancelErrors, r.cancelLastAttemptAt, now)
  }

  /** Only a cancel leaves a mark of its attempt. */
  predicate Retries(a: Await, c: ReconcileClaim, due: Time, cancelErrors: int, now: Time) {
    && a.AtCommit? && a.claim == c && a.after.ThenReturn?
    && Postponed(c.record, a.next, due, c.record.providerErrors, cancelErrors, Some(now), now)
  }

  predicate Cancels(p: RecoveryPolicy, a: Await, c: ReconcileClaim, now: Time) {
    a.AtCommit? && a.claim == c && a.after.ThenPollCancellation? && AskedToCancel(p, c.record, a.next, now, now)
  }

  /** One more failed poll: it seals the run at the cap, raises if its delay is out of range, and
      postpones the run otherwise. */
  predicate CountsFailure(p: RecoveryPolicy, a: Await, c: ReconcileClaim, keepDue: bool, now: Time, after: After)
    requires c.record.providerErrors >= 0
  {
    var count := c.record.providerErrors + 1;
    if count >= p.maxProviderErrors then Seals(a, c, Indeterminate, ProviderErrorCap, now, after)
    else
      match Backoff(p.providerBackoffInitial, p.providerBackoffMax, count)
      case Err(_) => a == Raised(OverflowError)
      case Ok(delay) =>
        Postpones(a, c, if keepDue then now else Min(c.record.deadlineAt, now + delay), count, now, after)
  }

  /** The call is over, or the provider cannot say: how the run ends. */
  predicate Finishes(a: Await, c: ReconcileClaim, o: PollOutcome, now: Time) {
    match o
    case PollSucceeded => Seals(a, c, Succeeded, TrajectorySucceeded, now, ThenReturn)
    case PollFailed(timeout) =>
      Seals(a, c, Failed, if timeout then FunctionTimeout else TrajectoryFailed, now, ThenReturn)
    case PollTerminated =>
      Seals(a, c, if c.record.state.CancellationRequested? then Cancelled else Failed, Terminated, now, ThenReturn)
    case PollIndeterminate => Seals(a, c, Indeterminate, ProviderAmbiguous, now, ThenReturn)
    case _ => false
  }

  // ---------------------------------------------------------------- the steps of a pass

  /** The first step, by state: a reservation expires at its deadline and waits for it before, a
      dispatch is sealed exactly at its stale boundary, a running call is cancelled from its deadline on
      and polled before, a cancellation is polled. */
  lemma BeginDecides(p: RecoveryPolicy, c: ReconcileClaim, now: Time)
    requires ValidPolicy(p) && ClaimOk(p, c)
    ensures var a, r := ReconcileClaimed(p, c, now), c.record;
      match r.state
      case Reserved =>
        if now >= r.deadlineAt then Seals(a, c, Cancelled, ExpiredBeforeDispatch, now, ThenReturn)
        else Postpones(a, c, r.deadlineAt, r.providerErrors, now, ThenReturn)
      case Dispatching =>
        if now >= r.deadlineAt || now >= r.stateChangedAt + p.dispatchStaleAfter
        then Seals(a, c, Indeterminate, DispatchAmbiguous, now, ThenReturn)
        else a == Returned
      case Running => if now >= r.deadlineAt then Cancels(p, a, c, now) else a == AtPoll(c)
      case CancellationRequested => a == AtCancellationPoll(c)
      case _ => a == Returned
  {
  }

  /** After the poll of a running call. */
  lemma PollDecides(p: RecoveryPolicy, c: ReconcileClaim, o: PollOutcome, now: Time)
    requires ValidPolicy(p) && AwaitOk(p, AtPoll(c))
    ensures var a, r := AfterPoll(p, c, o, now), c.record;
      if !o.PollPending? && !o.PollUnavailable? then Finishes(a, c, o, now)
      else if now >= r.deadlineAt then Cancels(p, a, c, now)
      else if o.PollPending? then Postpones(a, c, Min(r.deadlineAt, now + p.pollInterval), 0, now, ThenReturn)
      else CountsFailure(p, a, c, false, now, ThenReturn)
  {
    BackoffAtLeast(p, c.record.providerErrors + 1);
  }

  /** After the poll of a call that is being cancelled. */
  lemma CancellationPollDecides(p: RecoveryPolicy, c: ReconcileClaim, o: PollOutcome, now: Time, cancelNow: Time)
    requires ValidPolicy(p) && AwaitOk(p, AtCancellationPoll(c))
    ensures var a, r := AfterCancellationPoll(p, c, o, now, cancelNow), c.record;
      if !o.PollPending? && !o.PollUnavailable? then Finishes(a, c, o, now)
      else if now >= r.cancelDeadlineAt.value then Seals(a, c, Indeterminate, CancellationDeadline, now, ThenReturn)
      else if o.PollUnavailable? then CountsFailure(p, a, c, true, now, ThenCancel)
      else if r.providerErrors != 0 then Postpones(a, c, now, 0, now, ThenCancel)
      else if cancelNow >= r.cancelDeadlineAt.value
      then Seals(a, c, Indeterminate, CancellationDeadline, cancelNow, ThenReturn)
      else a == AtCancel(c)
  {
  }

  /** After a cancel: an accepted one is polled again after the poll interval with its errors forgotten,
      an indeterminate one seals the run, an unavailable one is counted up to the cap and tried again
      after its delay; and nothing goes beyond the deadline of the cancellation. */
  lemma CancelDecides(p: RecoveryPolicy, c: ReconcileClaim, o: CancelOutcome, now: Time)
    requires ValidPolicy(p) && AwaitOk(p, AtCancel(c))
    ensures var a, r := AfterCancel(p, c, o, now), c.record;
            var deadline, count := r.cancelDeadlineAt.value, r.cancelErrors + 1;
      if now >= deadline then Seals(a, c, Indeterminate, CancellationDeadline, now, ThenReturn)
      else
        match o
        case CancelAccepted => Retries(a, c, Min(now + p.pollInterval, deadline), 0, now)
        case CancelIndeterminate => Seals(a, c, Indeterminate, CancellationAmbiguous, now, ThenReturn)
        case CancelUnavailable =>
          if count >= p.maxCancelErrors then Seals(a, c, Indeterminate, CancellationErrorCap, now, ThenReturn)
          else
            match Backoff(p.cancelBackoffInitial, p.cancelBackoffMax, count)
            case Err(_) => a == Raised(OverflowError)
            case Ok(delay) => Retries(a, c, Min(now + delay, deadline), count, now)
  {
    AfterCancelOk(p, c, o, now);
  }

  /** Before its deadline a cancellation is sealed by a cancel in exactly two cases. */
  lemma CancelSealsExactly(p: RecoveryPolicy, c: ReconcileClaim, o: CancelOutcome, now: Time)
    requires ValidPolicy(p) && AwaitOk(p, AtCancel(c)) && now < c.record.cancelDeadlineAt.value
    ensures var a := AfterCancel(p, c, o, now);
      a.AtCommit? && a.next.state.Indeterminate? <==>
        o.CancelIndeterminate? || (o.CancelUnavailable? && c.record.cancelErrors + 1 >= p.maxCancelErrors)
  {
    CancelDecides(p, c, o, now);
  }

  /** After a commit: the pass goes on only if it won, under the same lease over what it wrote. */
  lemma CommitDecides(p: RecoveryPolicy, c: ReconcileClaim, n: RunRecord, after: After, won: bool, now: Time)
    requires ValidPolicy(p) && AwaitOk(p, AtCommit(c, n, after))
    ensures var a := AfterCommit(c, if won then Some(n) else None, after, now);
            var next := c.(record := n, expectedVersion := n.version);
      if !won || after.ThenReturn? then a == Returned
      else if after.ThenPollCancellation? then a == AtCancellationPoll(next)
      else if n.state.Indeterminate? then a == Returned
      else if now >= n.cancelDeadlineAt.value then Seals(a, next, Indeterminate, CancellationDeadline, now, ThenReturn)
      else a == AtCancel(next)
  {
  }

  // ---------------------------------------------------------------- the delays

  /** Doubling, one error after the other. */
  function Doubled(initial: Time, times: nat): Time {
    if times == 0 then initial else 2 * Doubled(initial, times - 1)
  }

  lemma {:induction false} DoubledIsProduct(initial: Time, times: nat)
    ensures Doubled(initial, times) == initial * Power2(times)
  {
    if times > 0 {
      DoubledIsProduct(initial, times - 1);
      TwiceProduct(initial, Power2(times - 1));
    }
  }

  lemma TwiceProduct(x: int, y: int)
    ensures 2 * (x * y) == x * (2 * y)
  {
  }

  /** The first delay is the initial one, each further error doubles it up to the maximum, and there is
      none once the doubled delay, before the maximum is taken, leaves the range. */
  lemma BackoffDoubles(initial: Time, maximum: Time, count: int)
    requires 0 < initial <= maximum && count >= 1
    ensures var delay := Backoff(initial, maximum, count);
      && (delay.Err? <==> Doubled(initial, count - 1) > 86399999999999999999)
      && (delay.Ok? && count == 1 ==> delay.value == initial)
      && (delay.Ok? && count > 1 ==>
            var before := Backoff(initial, maximum, count - 1);
            before.Ok? && delay.value == if 2 * before.value <= maximum then 2 * before.value else maximum)
  {
    DoubledIsProduct(initial, count - 1);
    if count > 1 {
      DoubledIsProduct(initial, count - 2);
      Power2Monotone(0, count - 2);
      ProductMonotone(initial, 1, Power2(count - 2));
    }
  }

  lemma BackoffAtLeast(p: RecoveryPolicy, count: int)
    requires ValidPolicy(p) && count >= 1
    ensures var delay := Backoff(p.providerBackoffInitial, p.providerBackoffMax, count); delay.Ok? ==> delay.value > 0
  {
    if Backoff(p.providerBackoffInitial, p.providerBackoffMax, count).Ok? {
      BackoffMonotone(p.providerBackoffInitial, p.providerBackoffMax, count, count);
    }
  }

  // ---------------------------------------------------------------- the steps of a request

  /** A reserved run expires from its deadline on, and is dispatched before; any other run is answered. */
  lemma AdmissionDecides(p: RecoveryPolicy, r: RunRecord, intent: IntentState,
                         desktop: Bytes, task: Bytes, checkNow: Time, now: Time)
    requires WellFormed(r)
    ensures var a := AfterAdmission(p, r, intent, desktop, task, checkNow, now);
      if !r.state.Reserved? then a == Answered
      else if checkNow >= r.deadlineAt then
        a.AtExpiryWrite? && a.record == r && Ended(r, a.next, Cancelled, ExpiredBeforeDispatch, now)
      else
        a == AtClaimDispatch(r, intent, now, Min(r.deadlineAt, now + p.dispatchStaleAfter), desktop, task)
  {
  }

  predicate SealsDispatch(a: ServiceAwait, r: RunRecord, now: Time) {
    a.AtAmbiguousWrite? && a.record == r && Ended(r, a.next, Indeterminate, DispatchAmbiguous, now)
  }

  /** A spawn that returned leads to the write of exactly its identity; one that raised seals the run. */
  lemma SpawnDecides(r: RunRecord, id: Option<CallId>, wakeAt: Time, now: Time)
    requires WellFormed(r) && r.state.Dispatching?
    ensures var a := AfterSpawn(r, id, wakeAt, now);
      match id
      case Some(k) => a.AtCallWrite? && a.record == r && StartedUnder(r, a.next, k, wakeAt, now)
      case None => SealsDispatch(a, r, now)
  {
  }

  /** An identity that was not stored seals the run. */
  lemma CallWriteDecides(r: RunRecord, stored: bool, now: Time)
    requires WellFormed(r) && r.state.Dispatching?
    ensures if stored then AfterCallWrite(r, stored, now) == Answered
            else SealsDispatch(AfterCallWrite(r, stored, now), r, now)
  {
  }

  /** A cancel ends a reservation, requests the cancellation of a running call, and writes nothing else. */
  lemma CancelReadDecides(p: RecoveryPolicy, r: RunRecord, requestedAt: Time, now: Time)
    requires ValidPolicy(p) && WellFormed(r)
    ensures var a := AfterCancelRead(p, r, requestedAt, now);
      if r.state.Reserved? then
        a.AtCancelWrite? && a.record == r && Ended(r, a.next, Cancelled, CancelledBeforeDispatch, now)
      else if r.state.Running? then
        a.AtCancelWrite? && a.record == r && AskedToCancel(p, r, a.next, requestedAt, now)
      else a == Answered
  {
  }
}

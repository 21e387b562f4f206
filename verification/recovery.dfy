/** The code a reconciler runs between two consecutive awaits (examples/run_gateway/recovery.py).

    Each function takes what the code holds and what the awaited call or the clock just answered,
    and returns the await it reaches next. */
module Recovery {
  import opened Outcomes
  import opened Domain
  import opened Store

  datatype RecoveryPolicy = RecoveryPolicy(
    pageSize: int,
    maxPagesPerTick: int,
    pollInterval: Time,
    providerBackoffInitial: Time,
    providerBackoffMax: Time,
    maxProviderErrors: int,
    cancelBackoffInitial: Time,
    cancelBackoffMax: Time,
    maxCancelErrors: int,
    cancellationGrace: Time,
    leaseDuration: Time,
    dispatchStaleAfter: Time)

  /** The checks of `RecoveryPolicy.__post_init__`. */
  predicate ValidPolicy(p: RecoveryPolicy) {
    && p.pageSize > 0 && p.maxPagesPerTick > 0 && p.maxProviderErrors > 0 && p.maxCancelErrors > 0
    && p.pollInterval > 0 && p.providerBackoffInitial > 0 && p.providerBackoffMax > 0
    && p.cancelBackoffInitial > 0 && p.cancelBackoffMax > 0
    && p.cancellationGrace > 0 && p.leaseDuration > 0 && p.dispatchStaleAfter > 0
    && p.providerBackoffInitial <= p.providerBackoffMax
    && p.cancelBackoffInitial <= p.cancelBackoffMax
  }

  function Min(a: int, b: int): int {
    if a <= b then a else b
  }

  // ---------------------------------------------------------------- backoff

  function Power2(n: nat): nat {
    if n == 0 then 1 else 2 * Power2(n - 1)
  }

  /** The largest `timedelta`, in microseconds. */
  const TIMEDELTA_MAX: Time := 86399999999999999999

  /** `_backoff`.  The product is a `timedelta` before the minimum is taken, so it can overflow. */
  function Backoff(initial: Time, maximum: Time, count: int): Result<Time, Error>
    requires count >= 1
  {
    if initial * Power2(count - 1) > TIMEDELTA_MAX then Err(OverflowError)
    else Ok(Min(maximum, initial * Power2(count - 1)))
  }

  lemma {:induction false} Power2Monotone(a: nat, b: nat)
    requires a <= b
    ensures 1 <= Power2(a) <= Power2(b)
    decreases b
  {
    if a < b {
      Power2Monotone(a, b - 1);
    } else if a > 0 {
      Power2Monotone(a - 1, b - 1);
    }
  }

  lemma {:induction false} Power2Sum(a: nat, b: nat)
    ensures Power2(a + b) == Power2(a) * Power2(b)
  {
    if a > 0 {
      Power2Sum(a - 1, b);
    }
  }

  lemma ProductMonotone(x: int, a: int, b: int)
    requires 0 <= x && a <= b
    ensures x * a <= x * b
  {
  }

  /** Delays stay within [initial, maximum], never shrink as errors repeat, and a count that does not
      overflow means no smaller count does. */
  lemma BackoffMonotone(initial: Time, maximum: Time, m: int, n: int)
    requires 0 < initial <= maximum && 1 <= m <= n
    requires Backoff(initial, maximum, n).Ok?
    ensures Backoff(initial, maximum, m).Ok?
    ensures initial <= Backoff(initial, maximum, m).value <= Backoff(initial, maximum, n).value <= maximum
  {
    Power2Monotone(m - 1, n - 1);
    ProductMonotone(initial, Power2(m - 1), Power2(n - 1));
    ProductMonotone(initial, 1, Power2(m - 1));
  }

  /** No error count below the cap can overflow: what a policy has to satisfy, beyond its own
      checks, for its backoff never to raise. */
  predicate BackoffInRange(p: RecoveryPolicy) {
    && (p.maxProviderErrors >= 2 ==> p.providerBackoffInitial * Power2(p.maxProviderErrors - 2) <= TIMEDELTA_MAX)
    && (p.maxCancelErrors >= 2 ==> p.cancelBackoffInitial * Power2(p.maxCancelErrors - 2) <= TIMEDELTA_MAX)
  }

  /** The check is exact: it holds if and only if every count below the cap gets a delay. */
  lemma BackoffInRangeExactly(p: RecoveryPolicy)
    requires ValidPolicy(p)
    ensures BackoffInRange(p) <==>
      && (forall n :: 1 <= n < p.maxProviderErrors ==> Backoff(p.providerBackoffInitial, p.providerBackoffMax, n).Ok?)
      && (forall n :: 1 <= n < p.maxCancelErrors ==> Backoff(p.cancelBackoffInitial, p.cancelBackoffMax, n).Ok?)
  {
    if BackoffInRange(p) {
      forall n | 1 <= n < p.maxProviderErrors ensures Backoff(p.providerBackoffInitial, p.providerBackoffMax, n).Ok? {
        BackoffMonotone(p.providerBackoffInitial, p.providerBackoffMax, n, p.maxProviderErrors - 1);
      }
      forall n | 1 <= n < p.maxCancelErrors ensures Backoff(p.cancelBackoffInitial, p.cancelBackoffMax, n).Ok? {
        BackoffMonotone(p.cancelBackoffInitial, p.cancelBackoffMax, n, p.maxCancelErrors - 1);
      }
    } else if p.maxProviderErrors >= 2 && p.providerBackoffInitial * Power2(p.maxProviderErrors - 2) > TIMEDELTA_MAX {
      assert Backoff(p.providerBackoffInitial, p.providerBackoffMax, p.maxProviderErrors - 1).Err?;
    } else {
      assert Backoff(p.cancelBackoffInitial, p.cancelBackoffMax, p.maxCancelErrors - 1).Err?;
    }
  }

  lemma Power2Of44()
    ensures Power2(44) == 17592186044416
  {
    Power2Sum(11, 11);
    Power2Sum(22, 22);
    assert Power2(11) == 2048;
  }

  /** A policy that passes every check of its own and still makes the 45th delay raise. */
  lemma SomeValidPolicyOverflows()
    ensures exists p: RecoveryPolicy ::
      && ValidPolicy(p) && !BackoffInRange(p)
      && p.maxProviderErrors == 60 && p.providerBackoffInitial == 5_000_000
      && Backoff(p.providerBackoffInitial, p.providerBackoffMax, 45) == Err(OverflowError)
  {
    hide Power2;
    var second := 1_000_000;
    var p := RecoveryPolicy(100, 10, 15 * second, 5 * second, 120 * second, 60, 5 * second, 60 * second, 6,
                            300 * second, 55 * second, 30 * second);
    Power2Of44();
    Power2Monotone(44, 58);
    ProductMonotone(5 * second, Power2(44), Power2(58));
    assert ValidPolicy(p) && !BackoffInRange(p);
    assert Backoff(p.providerBackoffInitial, p.providerBackoffMax, 45) == Err(OverflowError);
  }

  // ---------------------------------------------------------------- provider answers and awaits

  datatype PollOutcome =
    | PollPending
    | PollSucceeded
    | PollFailed(functionTimeout: bool)
    | PollTerminated
    | PollIndeterminate
    | PollUnavailable

  /** Answers that say the call is over. */
  predicate SaysFinished(o: PollOutcome) {
    o.PollSucceeded? || o.PollFailed? || o.PollTerminated?
  }

  datatype CancelOutcome = CancelAccepted | CancelUnavailable | CancelIndeterminate

  datatype After = ThenReturn | ThenPollCancellation | ThenCancel

  datatype Await =
    | Returned
    | Raised(error: Error)
    | AtPoll(claim: ReconcileClaim)
    | AtCancellationPoll(claim: ReconcileClaim)
    | AtCancel(claim: ReconcileClaim)
    | AtCommit(claim: ReconcileClaim, next: RunRecord, after: After)

  function CommitOf(claim: ReconcileClaim, r: Result<RunRecord, Error>, after: After): Await {
    match r
    case Err(e) => Raised(e)
    case Ok(n) => AtCommit(claim, n, after)
  }

  function SealIndeterminate(claim: ReconcileClaim, now: Time, reason: TerminalReason, after: After): Await {
    CommitOf(claim, Transition(claim.record, Indeterminate, now, NO_CHANGES.(reason := Some(reason))), after)
  }

  function RequestCancellation(p: RecoveryPolicy, claim: ReconcileClaim, now: Time): Await {
    CommitOf(claim,
      Transition(claim.record, CancellationRequested, now,
        NO_CHANGES.(reconcileAt := Some(now), cancelRequestedAt := Some(now),
                    cancelDeadlineAt := Some(now + p.cancellationGrace))),
      ThenPollCancellation)
  }

  predicate StaleBoundaryReached(p: RecoveryPolicy, r: RunRecord, now: Time) {
    now >= r.deadlineAt || now - r.stateChangedAt >= p.dispatchStaleAfter
  }

  /** `_reconcile_claim`, up to its first await. */
  function ReconcileClaimed(p: RecoveryPolicy, claim: ReconcileClaim, now: Time): Await {
    var r := claim.record;
    match r.state
    case Reserved =>
      if now >= r.deadlineAt then
        CommitOf(claim, Transition(r, Cancelled, now, NO_CHANGES.(reason := Some(ExpiredBeforeDispatch))), ThenReturn)
      else
        CommitOf(claim, Reschedule(r, now, r.deadlineAt, None, None, None), ThenReturn)
    case Dispatching =>
      if StaleBoundaryReached(p, r, now) then SealIndeterminate(claim, now, DispatchAmbiguous, ThenReturn)
      else Returned
    case Running =>
      if now >= r.deadlineAt then RequestCancellation(p, claim, now)
      else BeginPoll(claim, now)
    case CancellationRequested => BeginCancellationPoll(claim, now)
    case _ => Returned
  }

  function BeginPoll(claim: ReconcileClaim, now: Time): Await {
    if claim.record.callId.None? then SealIndeterminate(claim, now, ProviderAmbiguous, ThenReturn)
    else AtPoll(claim)
  }

  function BeginCancellationPoll(claim: ReconcileClaim, now: Time): Await {
    if claim.record.callId.None? then SealIndeterminate(claim, now, ProviderAmbiguous, ThenReturn)
    else AtCancellationPoll(claim)
  }

  /** `_poll`, after the provider answered. */
  function AfterPoll(p: RecoveryPolicy, claim: ReconcileClaim, o: PollOutcome, now: Time): Await
    requires WellFormed(claim.record)
  {
    var r := claim.record;
    if (o.PollPending? || o.PollUnavailable?) && now >= r.deadlineAt then
      RequestCancellation(p, claim, now)
    else if o.PollPending? then
      CommitOf(claim, Reschedule(r, now, Min(r.deadlineAt, now + p.pollInterval), Some(0), None, None), ThenReturn)
    else if o.PollUnavailable? then
      ProviderUnavailable(p, claim, now, None, ThenReturn)
    else
      FinishFromPoll(claim, o, now)
  }

  /** `_poll_cancellation`, after the provider answered; `cancelNow` is the clock reading of a
      `_cancel` entered at once. */
  function AfterCancellationPoll(p: RecoveryPolicy, claim: ReconcileClaim,
                                 o: PollOutcome, now: Time, cancelNow: Time): Await
    requires WellFormed(claim.record)
  {
    var r := claim.record;
    if !(o.PollPending? || o.PollUnavailable?) then
      FinishFromPoll(claim, o, now)
    else if r.cancelDeadlineAt.None? || now >= r.cancelDeadlineAt.value then
      SealIndeterminate(claim, now, CancellationDeadline, ThenReturn)
    else if o.PollUnavailable? then
      ProviderUnavailable(p, claim, now, Some(now), ThenCancel)
    else if r.providerErrors != 0 then
      CommitOf(claim, Reschedule(r, now, now, Some(0), None, None), ThenCancel)
    else
      BeginCancel(claim, cancelNow)
  }

  function BeginCancel(claim: ReconcileClaim, now: Time): Await {
    var r := claim.record;
    if r.cancelDeadlineAt.None? || now >= r.cancelDeadlineAt.value then
      SealIndeterminate(claim, now, CancellationDeadline, ThenReturn)
    else if r.callId.None? then
      SealIndeterminate(claim, now, ProviderAmbiguous, ThenReturn)
    else
      AtCancel(claim)
  }

  /** `_cancel`, after the provider answered. */
  function AfterCancel(p: RecoveryPolicy, claim: ReconcileClaim, o: CancelOutcome, now: Time): Await
    requires WellFormed(claim.record) && claim.record.cancelDeadlineAt.Some?
  {
    var r := claim.record;
    var deadline := r.cancelDeadlineAt.value;
    if now >= deadline then
      SealIndeterminate(claim, now, CancellationDeadline, ThenReturn)
    else match o
      case CancelIndeterminate => SealIndeterminate(claim, now, CancellationAmbiguous, ThenReturn)
      case CancelUnavailable =>
        var count := r.cancelErrors + 1;
        if count >= p.maxCancelErrors then
          SealIndeterminate(claim, now, CancellationErrorCap, ThenReturn)
        else (
          match Backoff(p.cancelBackoffInitial, p.cancelBackoffMax, count)
          case Err(e) => Raised(e)
          case Ok(delay) =>
            CommitOf(claim, Reschedule(r, now, Min(now + delay, deadline), None, Some(count), Some(now)), ThenReturn))
      case CancelAccepted =>
        CommitOf(claim, Reschedule(r, now, Min(now + p.pollInterval, deadline), None, Some(0), Some(now)), ThenReturn)
  }

  function ProviderUnavailable(p: RecoveryPolicy, claim: ReconcileClaim, now: Time,
                               keepDue: Option<Time>, after: After): Await
    requires WellFormed(claim.record)
  {
    var r := claim.record;
    var count := r.providerErrors + 1;
    if count >= p.maxProviderErrors then
      SealIndeterminate(claim, now, ProviderErrorCap, after)
    else
      match Backoff(p.providerBackoffInitial, p.providerBackoffMax, count)
      case Err(e) => Raised(e)
      case Ok(delay) =>
        var due := if keepDue.Some? then keepDue.value else Min(r.deadlineAt, now + delay);
        CommitOf(claim, Reschedule(r, now, due, Some(count), None, None), after)
  }

  function FinishFromPoll(claim: ReconcileClaim, o: PollOutcome, now: Time): Await {
    var r := claim.record;
    match o
    case PollSucceeded =>
      CommitOf(claim, Transition(r, Succeeded, now, NO_CHANGES.(reason := Some(TrajectorySucceeded))), ThenReturn)
    case PollFailed(timeout) =>
      CommitOf(claim, Transition(r, Failed, now,
        NO_CHANGES.(reason := Some(if timeout then FunctionTimeout else TrajectoryFailed))), ThenReturn)
    case PollTerminated =>
      CommitOf(claim, Transition(r, if r.state.CancellationRequested? then Cancelled else Failed, now,
        NO_CHANGES.(reason := Some(Terminated))), ThenReturn)
    case _ => SealIndeterminate(claim, now, ProviderAmbiguous, ThenReturn)
  }

  /** What follows a commit, given what the store answered. */
  function AfterCommit(claim: ReconcileClaim, committed: Option<RunRecord>, after: After, now: Time): Await {
    if committed.None? || after.ThenReturn? then
      Returned
    else if after.ThenCancel? && committed.value.state.Indeterminate? then
      Returned
    else
      match Advanced(claim, committed.value)
      case Err(e) => Raised(e)
      case Ok(next) =>
        if after.ThenPollCancellation? then BeginCancellationPoll(next, now) else BeginCancel(next, now)
  }

  // ---------------------------------------------------------------- what every step keeps

  /** Invariant of every stored record: error counters below their caps while live, a call identity
      exactly from running on, a dispatch due at its stale boundary, a bounded cancellation. */
  ghost predicate RecordOk(p: RecoveryPolicy, r: RunRecord) {
    && WellFormed(r)
    && (!IsTerminal(r.state) ==> r.providerErrors < p.maxProviderErrors && r.cancelErrors < p.maxCancelErrors)
    && (r.state.Reserved? || r.state.Dispatching? ==> r.callId.None?)
    && (r.state.Running? || r.state.CancellationRequested? || r.state.Succeeded? || r.state.Failed? ==> r.callId.Some?)
    && (r.state.Dispatching? && r.reconcileAt.Some? ==>
          r.reconcileAt.value == Min(r.deadlineAt, r.stateChangedAt + p.dispatchStaleAfter))
    && (r.state.CancellationRequested? && r.cancelRequestedAt.Some? && r.cancelDeadlineAt.Some? ==>
          r.cancelDeadlineAt.value == r.cancelRequestedAt.value + p.cancellationGrace)
  }

  ghost predicate ClaimOk(p: RecoveryPolicy, c: ReconcileClaim) {
    c.expectedVersion == c.record.version && RecordOk(p, c.record)
  }

  function GoverningDeadline(r: RunRecord): Time {
    if r.state.CancellationRequested? && r.cancelDeadlineAt.Some? then r.cancelDeadlineAt.value else r.deadlineAt
  }

  /** The pass is over and will be resumed strictly later, but no later than the governing deadline. */
  ghost predicate WakesInTime(n: RunRecord, now: Time) {
    n.reconcileAt.Some? && now < n.reconcileAt.value <= GoverningDeadline(n)
  }

  /** The least time between two passes over a running, or a cancelling, run. */
  function PollStep(p: RecoveryPolicy): Time {
    Min(p.pollInterval, p.providerBackoffInitial)
  }

  function CancelStep(p: RecoveryPolicy): Time {
    Min(p.pollInterval, p.cancelBackoffInitial)
  }

  /** When a run whose state stays is due again: a reservation at its deadline, a running call at
      least a poll step later, a cancellation at least a cancel step later or, in the middle of a
      pass, at once.  A requested cancellation is due when it was requested.  A dispatch is never
      rescheduled. */
  ghost predicate Spaced(p: RecoveryPolicy, r: RunRecord, n: RunRecord) {
    n.reconcileAt.Some? && !IsTerminal(n.state) ==>
      && !(r.state.Dispatching? && n.state.Dispatching?)
      && (r.state.Reserved? && n.state.Reserved? ==>
            n.reconcileAt.value == n.deadlineAt && n.updatedAt < n.deadlineAt)
      && (r.state.Running? && n.state.Running? ==>
            n.updatedAt < n.deadlineAt && n.reconcileAt.value >= Min(n.deadlineAt, n.updatedAt + PollStep(p)))
      && (r.state.Running? && n.state.CancellationRequested? ==> n.reconcileAt == n.cancelRequestedAt)
      && (r.state.CancellationRequested? && n.state.CancellationRequested? && n.cancelDeadlineAt.Some? ==>
            && n.cancelDeadlineAt == r.cancelDeadlineAt && n.updatedAt < n.cancelDeadlineAt.value
            && (n.reconcileAt.value == n.updatedAt
                  || n.reconcileAt.value >= Min(n.cancelDeadlineAt.value, n.updatedAt + CancelStep(p))))
  }

  /** A legal next write for the record the claim holds. */
  ghost predicate CommitOk(p: RecoveryPolicy, r: RunRecord, n: RunRecord) {
    && Writable(r, n) && RecordOk(p, n) && Spaced(p, r, n)
    && (r.state.Reserved? && n.state != r.state ==> n.state.Cancelled?)
    && (r.state.Dispatching? ==> n.state.Indeterminate? && StaleBoundaryReached(p, r, n.updatedAt))
  }

  /** What holds whenever a reconciler waits. */
  ghost predicate AwaitOk(p: RecoveryPolicy, a: Await) {
    match a
    case Returned => true
    case Raised(e) => e.OverflowError? && !BackoffInRange(p)
    case AtPoll(c) => ClaimOk(p, c) && c.record.state.Running?
    case AtCancellationPoll(c) => ClaimOk(p, c) && c.record.state.CancellationRequested?
    case AtCancel(c) => ClaimOk(p, c) && c.record.state.CancellationRequested?
    case AtCommit(c, n, after) =>
      && ClaimOk(p, c) && CommitOk(p, c.record, n)
      && (after.ThenReturn? ==> IsTerminal(n.state) || WakesInTime(n, n.updatedAt))
      && (after.ThenPollCancellation? ==> c.record.state.Running? && n.state.CancellationRequested?)
      && (after.ThenCancel? ==> n.state.CancellationRequested? || n.state.Indeterminate?)
  }

  /** Within one pass the lease never changes, and the claim is the given one. */
  predicate Keeps(a: Await, c: ReconcileClaim) {
    !a.Returned? && !a.Raised? ==> a.claim == c
  }

  /** A release may only follow from a reservation that was never dispatched, or from an answer that
      the call is over. */
  predicate ReleasesOnlyAfter(a: Await, finished: bool) {
    a.AtCommit? && IsReleasing(a.next.state) ==> a.claim.record.state.Reserved? || finished
  }

  lemma SealOk(p: RecoveryPolicy, c: ReconcileClaim, now: Time, reason: TerminalReason, after: After)
    requires ClaimOk(p, c) && !IsTerminal(c.record.state) && !c.record.state.Reserved?
    requires c.record.state.Dispatching? ==> StaleBoundaryReached(p, c.record, now)
    requires after.ThenReturn? || after.ThenCancel?
    ensures AwaitOk(p, SealIndeterminate(c, now, reason, after))
    ensures ReleasesOnlyAfter(SealIndeterminate(c, now, reason, after), false)
    ensures Keeps(SealIndeterminate(c, now, reason, after), c)
  {
  }

  lemma RequestCancellationOk(p: RecoveryPolicy, c: ReconcileClaim, now: Time)
    requires ValidPolicy(p) && ClaimOk(p, c) && c.record.state.Running?
    ensures AwaitOk(p, RequestCancellation(p, c, now))
    ensures ReleasesOnlyAfter(RequestCancellation(p, c, now), false)
    ensures Keeps(RequestCancellation(p, c, now), c)
  {
  }

  lemma ReconcileClaimedOk(p: RecoveryPolicy, c: ReconcileClaim, now: Time)
    requires ValidPolicy(p) && ClaimOk(p, c)
    ensures AwaitOk(p, ReconcileClaimed(p, c, now))
    ensures ReleasesOnlyAfter(ReconcileClaimed(p, c, now), false)
    ensures Keeps(ReconcileClaimed(p, c, now), c)
  {
    if c.record.state.Dispatching? && StaleBoundaryReached(p, c.record, now) {
      SealOk(p, c, now, DispatchAmbiguous, ThenReturn);
    } else if c.record.state.Running? && now >= c.record.deadlineAt {
      RequestCancellationOk(p, c, now);
    }
  }

  lemma ProviderUnavailableOk(p: RecoveryPolicy, c: ReconcileClaim, now: Time, keepDue: Option<Time>, after: After)
    requires ValidPolicy(p) && ClaimOk(p, c)
    requires (c.record.state.Running? && keepDue.None? && after.ThenReturn? && now < c.record.deadlineAt)
          || (c.record.state.CancellationRequested? && keepDue == Some(now) && after.ThenCancel?
                && now < c.record.cancelDeadlineAt.value)
    ensures AwaitOk(p, ProviderUnavailable(p, c, now, keepDue, after))
    ensures ReleasesOnlyAfter(ProviderUnavailable(p, c, now, keepDue, after), false)
    ensures Keeps(ProviderUnavailable(p, c, now, keepDue, after), c)
  {
    var count := c.record.providerErrors + 1;
    if count >= p.maxProviderErrors {
      SealOk(p, c, now, ProviderErrorCap, after);
    } else {
      BackoffInRangeExactly(p);
      if Backoff(p.providerBackoffInitial, p.providerBackoffMax, count).Ok? {
        BackoffMonotone(p.providerBackoffInitial, p.providerBackoffMax, count, count);
      }
    }
  }

  lemma FinishFromPollOk(p: RecoveryPolicy, c: ReconcileClaim, o: PollOutcome, now: Time)
    requires ClaimOk(p, c) && (c.record.state.Running? || c.record.state.CancellationRequested?)
    ensures AwaitOk(p, FinishFromPoll(c, o, now))
    ensures ReleasesOnlyAfter(FinishFromPoll(c, o, now), SaysFinished(o))
    ensures Keeps(FinishFromPoll(c, o, now), c)
  {
    if !SaysFinished(o) {
      SealOk(p, c, now, ProviderAmbiguous, ThenReturn);
    }
  }

  /** How a run ends when a poll says its call is over: each end state has exactly one kind of answer,
      and a terminated call counts as cancelled only if a cancellation had been requested. */
  lemma PollDecidesEnd(p: RecoveryPolicy, c: ReconcileClaim, o: PollOutcome, now: Time)
    requires ClaimOk(p, c) && (c.record.state.Running? || c.record.state.CancellationRequested?)
    ensures var a := FinishFromPoll(c, o, now);
      && a.AtCommit? && a.next.terminalAt == Some(now)
      && (a.next.state.Succeeded? <==> o.PollSucceeded?)
      && (a.next.state.Failed? <==> o.PollFailed? || (o.PollTerminated? && c.record.state.Running?))
      && (a.next.state.Cancelled? <==> o.PollTerminated? && c.record.state.CancellationRequested?)
      && (a.next.state.Indeterminate? <==> !SaysFinished(o))
      && (a.next.terminalReason == Some(FunctionTimeout) <==> o == PollFailed(true))
      && (a.next.terminalReason == Some(Terminated) <==> o.PollTerminated?)
  {
    FinishFromPollOk(p, c, o, now);
  }

  lemma AfterPollOk(p: RecoveryPolicy, c: ReconcileClaim, o: PollOutcome, now: Time)
    requires ValidPolicy(p) && AwaitOk(p, AtPoll(c))
    ensures AwaitOk(p, AfterPoll(p, c, o, now))
    ensures ReleasesOnlyAfter(AfterPoll(p, c, o, now), SaysFinished(o))
    ensures Keeps(AfterPoll(p, c, o, now), c)
  {
    if (o.PollPending? || o.PollUnavailable?) && now >= c.record.deadlineAt {
      RequestCancellationOk(p, c, now);
    } else if o.PollUnavailable? {
      ProviderUnavailableOk(p, c, now, None, ThenReturn);
    } else if !o.PollPending? {
      FinishFromPollOk(p, c, o, now);
    }
  }

  lemma BeginCancelOk(p: RecoveryPolicy, c: ReconcileClaim, now: Time)
    requires ClaimOk(p, c) && c.record.state.CancellationRequested?
    ensures AwaitOk(p, BeginCancel(c, now))
    ensures ReleasesOnlyAfter(BeginCancel(c, now), false)
    ensures Keeps(BeginCancel(c, now), c)
  {
    if !BeginCancel(c, now).AtCancel? {
      SealOk(p, c, now, CancellationDeadline, ThenReturn);
    }
  }

  lemma AfterCancellationPollOk(p: RecoveryPolicy, c: ReconcileClaim, o: PollOutcome, now: Time, cancelNow: Time)
    requires ValidPolicy(p) && AwaitOk(p, AtCancellationPoll(c))
    ensures AwaitOk(p, AfterCancellationPoll(p, c, o, now, cancelNow))
    ensures ReleasesOnlyAfter(AfterCancellationPoll(p, c, o, now, cancelNow), SaysFinished(o))
    ensures Keeps(AfterCancellationPoll(p, c, o, now, cancelNow), c)
  {
    if !(o.PollPending? || o.PollUnavailable?) {
      FinishFromPollOk(p, c, o, now);
    } else if now >= c.record.cancelDeadlineAt.value {
      SealOk(p, c, now, CancellationDeadline, ThenReturn);
    } else if o.PollUnavailable? {
      ProviderUnavailableOk(p, c, now, Some(now), ThenCancel);
    } else if c.record.providerErrors == 0 {
      BeginCancelOk(p, c, cancelNow);
    }
  }

  lemma AfterCancelOk(p: RecoveryPolicy, c: ReconcileClaim, o: CancelOutcome, now: Time)
    requires ValidPolicy(p) && AwaitOk(p, AtCancel(c))
    ensures AwaitOk(p, AfterCancel(p, c, o, now))
    ensures ReleasesOnlyAfter(AfterCancel(p, c, o, now), false)
    ensures Keeps(AfterCancel(p, c, o, now), c)
  {
    var count := c.record.cancelErrors + 1;
    if now >= c.record.cancelDeadlineAt.value || o.CancelIndeterminate?
        || (o.CancelUnavailable? && count >= p.maxCancelErrors) {
      SealOk(p, c, now, CancellationDeadline, ThenReturn);
    } else if o.CancelUnavailable? {
      BackoffInRangeExactly(p);
      if Backoff(p.cancelBackoffInitial, p.cancelBackoffMax, count).Ok? {
        BackoffMonotone(p.cancelBackoffInitial, p.cancelBackoffMax, count, count);
      }
    }
  }

  lemma AfterCommitOk(p: RecoveryPolicy, c: ReconcileClaim, n: RunRecord, after: After, won: bool, now: Time)
    requires ValidPolicy(p) && AwaitOk(p, AtCommit(c, n, after))
    ensures AwaitOk(p, AfterCommit(c, if won then Some(n) else None, after, now))
    ensures ReleasesOnlyAfter(AfterCommit(c, if won then Some(n) else None, after, now), false)
    ensures Advanced(c, n).Ok? && Keeps(AfterCommit(c, if won then Some(n) else None, after, now), Advanced(c, n).value)
  {
    if won && after.ThenCancel? && !n.state.Indeterminate? {
      BeginCancelOk(p, Advanced(c, n).value, now);
    }
  }

  /** When a pass over a running call raises: exactly on an unavailable answer before the deadline
      whose new error count is below the cap and whose delay overflows. */
  lemma AfterPollRaisesExactly(p: RecoveryPolicy, c: ReconcileClaim, o: PollOutcome, now: Time)
    requires ValidPolicy(p) && AwaitOk(p, AtPoll(c))
    ensures AfterPoll(p, c, o, now).Raised? <==>
            && o.PollUnavailable? && now < c.record.deadlineAt
            && c.record.providerErrors + 1 < p.maxProviderErrors
            && p.providerBackoffInitial * Power2(c.record.providerErrors) > TIMEDELTA_MAX
  {
    if o.PollUnavailable? && now < c.record.deadlineAt && c.record.providerErrors + 1 < p.maxProviderErrors {
      var count := c.record.providerErrors + 1;
      if Backoff(p.providerBackoffInitial, p.providerBackoffMax, count).Ok? {
        BackoffMonotone(p.providerBackoffInitial, p.providerBackoffMax, count, count);
      }
    } else if (o.PollPending? || o.PollUnavailable?) && now >= c.record.deadlineAt {
      RequestCancellationOk(p, c, now);
      assert RequestCancellation(p, c, now).AtCommit?;
    } else if !(o.PollPending? || o.PollUnavailable?) {
      assert FinishFromPoll(c, o, now).AtCommit?;
    }
  }

  // ---------------------------------------------------------------- from await to await

  /** What one await brings: the answer of the call, and the clock readings that follow it. */
  datatype Answer = Answer(now: Time, laterNow: Time, poll: PollOutcome, cancel: CancelOutcome, commit: CasAnswer)

  /** The next await of a pass.  A commit that raises ends the pass, written or not. */
  function NextAwait(p: RecoveryPolicy, a: Await, x: Answer): Await
    requires AwaitOk(p, a)
  {
    match a
    case Returned => a
    case Raised(_) => a
    case AtPoll(c) => AfterPoll(p, c, x.poll, x.now)
    case AtCancellationPoll(c) => AfterCancellationPoll(p, c, x.poll, x.now, x.laterNow)
    case AtCancel(c) => AfterCancel(p, c, x.cancel, x.now)
    case AtCommit(c, n, after) =>
      match x.commit
      case CasStored => AfterCommit(c, Some(n), after, x.now)
      case CasLost => AfterCommit(c, None, after, x.now)
      case CasRaised => Raised(StoreError)
  }

  lemma NextAwaitOk(p: RecoveryPolicy, a: Await, x: Answer)
    requires ValidPolicy(p) && AwaitOk(p, a)
    ensures if a.AtCommit? && x.commit.CasRaised? then NextAwait(p, a, x) == Raised(StoreError)
            else AwaitOk(p, NextAwait(p, a, x))
  {
    match a
    case Returned =>
    case Raised(_) =>
    case AtPoll(c) => AfterPollOk(p, c, x.poll, x.now);
    case AtCancellationPoll(c) => AfterCancellationPollOk(p, c, x.poll, x.now, x.laterNow);
    case AtCancel(c) => AfterCancelOk(p, c, x.cancel, x.now);
    case AtCommit(c, n, after) => AfterCommitOk(p, c, n, after, x.commit.CasStored?, x.now);
  }
}

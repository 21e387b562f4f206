/** Recovery terminates: complete passes and the writes of requests, in any order, end every run
    within an explicit number of writes. */
module Progress {
  import opened Outcomes
  import opened Domain
  import opened Store
  import opened Recovery
  import opened Service

  // ---------------------------------------------------------------- one pass, alone with its answers

  /** A clock that never goes back. */
  predicate Forward(t: Time, xs: seq<Answer>) {
    && (forall k :: 0 <= k < |xs| ==> t <= xs[k].now <= xs[k].laterNow)
    && (forall j, k :: 0 <= j < k < |xs| ==> xs[j].laterNow <= xs[k].now)
  }

  /** No commit is lost, and none raises. */
  predicate Winning(xs: seq<Answer>) {
    forall k :: 0 <= k < |xs| ==> xs[k].commit.CasStored?
  }

  function NextRecord(r: RunRecord, a: Await): RunRecord {
    if a.AtCommit? then a.next else r
  }

  /** The stored record and the await reached after the given answers. */
  function Drive(p: RecoveryPolicy, r: RunRecord, a: Await, xs: seq<Answer>): (RunRecord, Await)
    requires ValidPolicy(p) && AwaitOk(p, a) && Winning(xs)
    decreases |xs|
  {
    if xs == [] then (r, a)
    else
      NextAwaitOk(p, a, xs[0]);
      Drive(p, NextRecord(r, a), NextAwait(p, a, xs[0]), xs[1..])
  }

  /** A pass: its lease, when it began, and what its awaits brought. */
  datatype Pass = Pass(token: nat, leaseExpiresAt: Time, begin: Time, answers: seq<Answer>)

  function ClaimOf(r: RunRecord, pass: Pass): ReconcileClaim {
    ReconcileClaim(r, r.version, pass.token, pass.leaseExpiresAt)
  }

  function PassResult(p: RecoveryPolicy, r: RunRecord, pass: Pass): (RunRecord, Await)
    requires ValidPolicy(p) && RecordOk(p, r) && Winning(pass.answers)
  {
    ReconcileClaimedOk(p, ClaimOf(r, pass), pass.begin);
    Drive(p, r, ReconcileClaimed(p, ClaimOf(r, pass), pass.begin), pass.answers)
  }

  /** How many more awaits a pass can reach. */
  function AwaitsLeft(a: Await): nat {
    match a
    case Returned => 0
    case Raised(_) => 0
    case AtPoll(_) => 6
    case AtCommit(_, _, after) => if after.ThenPollCancellation? then 5 else if after.ThenCancel? then 3 else 1
    case AtCancellationPoll(_) => 4
    case AtCancel(_) => 2
  }

  lemma AwaitsShrink(p: RecoveryPolicy, a: Await, x: Answer)
    requires ValidPolicy(p) && AwaitOk(p, a) && AwaitsLeft(a) > 0 && x.commit.CasStored?
    ensures AwaitsLeft(NextAwait(p, a, x)) < AwaitsLeft(a)
  {
  }

  lemma {:induction false} DriveEnds(p: RecoveryPolicy, r: RunRecord, a: Await, xs: seq<Answer>)
    requires ValidPolicy(p) && AwaitOk(p, a) && Winning(xs) && |xs| >= AwaitsLeft(a)
    ensures var last := Drive(p, r, a, xs).1; (last.Returned? || last.Raised?) && AwaitOk(p, last)
    decreases |xs|
  {
    if xs != [] {
      NextAwaitOk(p, a, xs[0]);
      if AwaitsLeft(a) > 0 { AwaitsShrink(p, a, xs[0]); }
      DriveEnds(p, NextRecord(r, a), NextAwait(p, a, xs[0]), xs[1..]);
    }
  }

  /** A pass is over after six answers at most, and under a policy whose backoff stays in range it
      never ends by raising. */
  lemma PassEnds(p: RecoveryPolicy, r: RunRecord, pass: Pass)
    requires ValidPolicy(p) && BackoffInRange(p) && RecordOk(p, r) && Winning(pass.answers) && |pass.answers| >= 6
    ensures PassResult(p, r, pass).1.Returned?
  {
    ReconcileClaimedOk(p, ClaimOf(r, pass), pass.begin);
    DriveEnds(p, r, ReconcileClaimed(p, ClaimOf(r, pass), pass.begin), pass.answers);
  }

  // ---------------------------------------------------------------- the measure

  /** How many steps of `d` it takes to use up `span`: its quotient, rounded up. */
  function Steps(span: int, d: int): nat
    requires d > 0
    decreases if span > 0 then span else 0
  {
    if span <= 0 then 0 else 1 + Steps(span - d, d)
  }

  lemma {:induction false} StepsMonotone(a: int, b: int, d: int)
    requires d > 0 && a <= b
    ensures Steps(a, d) <= Steps(b, d)
    decreases if b > 0 then b else 0
  {
    if b > 0 && a > 0 {
      StepsMonotone(a - d, b - d, d);
    }
  }

  lemma {:induction false} StepsIsCeiling(span: int, d: int)
    requires d > 0 && span > 0
    ensures (Steps(span, d) - 1) * d < span <= Steps(span, d) * d
    decreases span
  {
    if span > d {
      StepsIsCeiling(span - d, d);
    }
  }

  /** Passes a run needs once its cancellation has been requested. */
  function CancellationBound(p: RecoveryPolicy): nat
    requires ValidPolicy(p)
  {
    Steps(p.cancellationGrace, CancelStep(p)) + 1
  }

  /** Writes a running call needs at most, whenever it started. */
  function RunningBound(p: RecoveryPolicy, r: RunRecord): nat
    requires ValidPolicy(p)
  {
    Steps(r.deadlineAt - r.createdAt, PollStep(p)) + 1 + CancellationBound(p)
  }

  /** Writes that still suffice for a run: its state first, then the time left to its deadline. */
  function Bound(p: RecoveryPolicy, r: RunRecord): nat
    requires ValidPolicy(p) && RecordOk(p, r)
  {
    match r.state
    case Reserved => (if r.reconcileAt.value < r.deadlineAt then 2 else 1) + 1 + RunningBound(p, r)
    case Dispatching => 1 + RunningBound(p, r)
    case Running => Steps(r.deadlineAt - r.reconcileAt.value, PollStep(p)) + 1 + CancellationBound(p)
    case CancellationRequested => Steps(r.cancelDeadlineAt.value - r.reconcileAt.value, CancelStep(p)) + 1
    case _ => 0
  }

  ghost predicate Closer(p: RecoveryPolicy, from: RunRecord, r: RunRecord)
    requires ValidPolicy(p) && RecordOk(p, from)
  {
    RecordOk(p, r) && (IsTerminal(r.state) || Bound(p, r) < Bound(p, from))
  }

  // ---------------------------------------------------------------- what a pass keeps

  /** A cancelling run at time `t`: whatever the pass schedules from here is closer. */
  ghost predicate CancelPhase(p: RecoveryPolicy, from: RunRecord, r: RunRecord, t: Time)
    requires ValidPolicy(p) && RecordOk(p, from)
  {
    && RecordOk(p, r) && r.state.CancellationRequested?
    && (t < r.cancelDeadlineAt.value ==>
          Steps(r.cancelDeadlineAt.value - t - CancelStep(p), CancelStep(p)) + 1 < Bound(p, from))
  }

  ghost predicate PassInv(p: RecoveryPolicy, from: RunRecord, r: RunRecord, a: Await, t: Time)
    requires ValidPolicy(p) && RecordOk(p, from)
  {
    && AwaitOk(p, a)
    && match a
       case Returned => Closer(p, from, r)
       case Raised(_) => true
       case AtPoll(c) =>
         && c.record == r && r == from
         && from.reconcileAt.value <= t && from.reconcileAt.value < from.deadlineAt
       case AtCancellationPoll(c) => c.record == r && CancelPhase(p, from, r, t)
       case AtCancel(c) => c.record == r && CancelPhase(p, from, r, t)
       case AtCommit(c, n, after) =>
         && c.record == r
         && (if after.ThenReturn? then Closer(p, from, n) else n.state.Indeterminate? || CancelPhase(p, from, n, t))
  }

  lemma LaterCancelPhase(p: RecoveryPolicy, from: RunRecord, r: RunRecord, t: Time, u: Time)
    requires ValidPolicy(p) && RecordOk(p, from) && CancelPhase(p, from, r, t) && t <= u
    ensures CancelPhase(p, from, r, u)
  {
    StepsMonotone(r.cancelDeadlineAt.value - u - CancelStep(p), r.cancelDeadlineAt.value - t - CancelStep(p),
                  CancelStep(p));
  }

  /** A cancelling run rescheduled at `due`, at least a step after `t` or at its deadline, is closer. */
  lemma RescheduledCancellation(p: RecoveryPolicy, from: RunRecord, r: RunRecord, n: RunRecord, t: Time)
    requires ValidPolicy(p) && RecordOk(p, from) && CancelPhase(p, from, r, t) && t < r.cancelDeadlineAt.value
    requires RecordOk(p, n) && n.state.CancellationRequested? && n.cancelDeadlineAt == r.cancelDeadlineAt
    requires n.reconcileAt.value >= Min(t + CancelStep(p), r.cancelDeadlineAt.value)
    ensures Closer(p, from, n)
  {
    StepsMonotone(n.cancelDeadlineAt.value - n.reconcileAt.value,
                  if t + CancelStep(p) <= r.cancelDeadlineAt.value then r.cancelDeadlineAt.value - t - CancelStep(p)
                      else 0, CancelStep(p));
  }

  lemma SealedIsCloser(p: RecoveryPolicy, from: RunRecord, c: ReconcileClaim,
                       now: Time, reason: TerminalReason, after: After, t: Time)
    requires ValidPolicy(p) && RecordOk(p, from) && ClaimOk(p, c)
    requires c.record.state.Running? || c.record.state.CancellationRequested?
    requires after.ThenReturn? || after.ThenCancel?
    ensures PassInv(p, from, c.record, SealIndeterminate(c, now, reason, after), t)
  {
    SealOk(p, c, now, reason, after);
  }

  lemma FinishedIsCloser(p: RecoveryPolicy, from: RunRecord, c: ReconcileClaim, o: PollOutcome, now: Time)
    requires ValidPolicy(p) && RecordOk(p, from) && ClaimOk(p, c)
    requires c.record.state.Running? || c.record.state.CancellationRequested?
    requires !o.PollPending? && !o.PollUnavailable?
    ensures PassInv(p, from, c.record, FinishFromPoll(c, o, now), now)
  {
    FinishFromPollOk(p, c, o, now);
    if !SaysFinished(o) {
      SealedIsCloser(p, from, c, now, ProviderAmbiguous, ThenReturn, now);
    }
  }

  /** Requesting cancellation at `now` leaves less to do than any running record. */
  lemma RequestedPhase(p: RecoveryPolicy, from: RunRecord, c: ReconcileClaim, now: Time)
    requires ValidPolicy(p) && RecordOk(p, from) && from.state.Running? && ClaimOk(p, c) && c.record.state.Running?
    ensures PassInv(p, from, c.record, RequestCancellation(p, c, now), now)
  {
    RequestCancellationOk(p, c, now);
    assert Steps(p.cancellationGrace, CancelStep(p)) == 1 + Steps(p.cancellationGrace - CancelStep(p), CancelStep(p));
  }

  /** A running record rescheduled before its deadline, by a step or to the deadline, is closer. */
  lemma RescheduledRunning(p: RecoveryPolicy, from: RunRecord, n: RunRecord, now: Time)
    requires ValidPolicy(p) && RecordOk(p, from) && RecordOk(p, n) && from.state.Running? && n.state.Running?
    requires n.deadlineAt == from.deadlineAt && from.reconcileAt.value <= now
             && from.reconcileAt.value < from.deadlineAt
    requires n.reconcileAt.value >= Min(from.deadlineAt, now + PollStep(p))
    ensures Closer(p, from, n)
  {
    var span := from.deadlineAt - from.reconcileAt.value;
    assert Steps(span, PollStep(p)) == 1 + Steps(span - PollStep(p), PollStep(p));
    StepsMonotone(n.deadlineAt - n.reconcileAt.value, if span > PollStep(p) then span - PollStep(p) else 0,
                  PollStep(p));
  }

  lemma AfterPollProgress(p: RecoveryPolicy, from: RunRecord, c: ReconcileClaim, o: PollOutcome, t: Time, now: Time)
    requires ValidPolicy(p) && RecordOk(p, from) && PassInv(p, from, c.record, AtPoll(c), t) && t <= now
    ensures PassInv(p, from, c.record, AfterPoll(p, c, o, now), now)
  {
    AfterPollOk(p, c, o, now);
    var r := c.record;
    if (o.PollPending? || o.PollUnavailable?) && now >= r.deadlineAt {
      RequestedPhase(p, from, c, now);
    } else if o.PollPending? {
      RescheduledRunning(p, from, AfterPoll(p, c, o, now).next, now);
    } else if o.PollUnavailable? {
      if r.providerErrors + 1 >= p.maxProviderErrors {
        SealedIsCloser(p, from, c, now, ProviderErrorCap, ThenReturn, now);
      } else if Backoff(p.providerBackoffInitial, p.providerBackoffMax, r.providerErrors + 1).Ok? {
        BackoffMonotone(p.providerBackoffInitial, p.providerBackoffMax, r.providerErrors + 1, r.providerErrors + 1);
        RescheduledRunning(p, from, AfterPoll(p, c, o, now).next, now);
      }
    } else {
      FinishedIsCloser(p, from, c, o, now);
    }
  }

  lemma BeginCancelProgress(p: RecoveryPolicy, from: RunRecord, c: ReconcileClaim, t: Time, now: Time)
    requires ValidPolicy(p) && RecordOk(p, from) && ClaimOk(p, c) && CancelPhase(p, from, c.record, t) && t <= now
    ensures PassInv(p, from, c.record, BeginCancel(c, now), now)
  {
    BeginCancelOk(p, c, now);
    LaterCancelPhase(p, from, c.record, t, now);
    if !BeginCancel(c, now).AtCancel? {
      SealedIsCloser(p, from, c, now, CancellationDeadline, ThenReturn, now);
    }
  }

  lemma AfterCancellationPollProgress(p: RecoveryPolicy, from: RunRecord, c: ReconcileClaim,
                                      o: PollOutcome, t: Time, now: Time, cancelNow: Time)
    requires ValidPolicy(p) && RecordOk(p, from) && PassInv(p, from, c.record, AtCancellationPoll(c), t)
        && t <= now <= cancelNow
    ensures PassInv(p, from, c.record, AfterCancellationPoll(p, c, o, now, cancelNow), cancelNow)
  {
    AfterCancellationPollOk(p, c, o, now, cancelNow);
    var r := c.record;
    LaterCancelPhase(p, from, r, t, cancelNow);
    if !(o.PollPending? || o.PollUnavailable?) {
      FinishedIsCloser(p, from, c, o, now);
    } else if now >= r.cancelDeadlineAt.value {
      SealedIsCloser(p, from, c, now, CancellationDeadline, ThenReturn, now);
    } else if o.PollUnavailable? {
      if r.providerErrors + 1 >= p.maxProviderErrors {
        SealedIsCloser(p, from, c, now, ProviderErrorCap, ThenCancel, now);
      }
    } else if r.providerErrors == 0 {
      BeginCancelProgress(p, from, c, t, cancelNow);
    }
  }

  lemma AfterCancelProgress(p: RecoveryPolicy, from: RunRecord, c: ReconcileClaim, o: CancelOutcome, t: Time, now: Time)
    requires ValidPolicy(p) && RecordOk(p, from) && PassInv(p, from, c.record, AtCancel(c), t) && t <= now
    ensures PassInv(p, from, c.record, AfterCancel(p, c, o, now), now)
  {
    AfterCancelOk(p, c, o, now);
    var r := c.record;
    LaterCancelPhase(p, from, r, t, now);
    var count := r.cancelErrors + 1;
    if now >= r.cancelDeadlineAt.value || o.CancelIndeterminate?
       || (o.CancelUnavailable? && count >= p.maxCancelErrors) {
      SealedIsCloser(p, from, c, now, CancellationDeadline, ThenReturn, now);
    } else if o.CancelAccepted? {
      RescheduledCancellation(p, from, r, AfterCancel(p, c, o, now).next, now);
    } else if Backoff(p.cancelBackoffInitial, p.cancelBackoffMax, count).Ok? {
      BackoffMonotone(p.cancelBackoffInitial, p.cancelBackoffMax, count, count);
      RescheduledCancellation(p, from, r, AfterCancel(p, c, o, now).next, now);
    }
  }

  lemma AfterCommitProgress(p: RecoveryPolicy, from: RunRecord, c: ReconcileClaim,
                            n: RunRecord, after: After, t: Time, now: Time)
    requires ValidPolicy(p) && RecordOk(p, from) && PassInv(p, from, c.record, AtCommit(c, n, after), t) && t <= now
    ensures PassInv(p, from, n, AfterCommit(c, Some(n), after, now), now)
  {
    AfterCommitOk(p, c, n, after, true, now);
    if !after.ThenReturn? && !n.state.Indeterminate? {
      LaterCancelPhase(p, from, n, t, now);
      if after.ThenCancel? {
        BeginCancelProgress(p, from, Advanced(c, n).value, t, now);
      }
    }
  }

  lemma NextProgress(p: RecoveryPolicy, from: RunRecord, r: RunRecord, a: Await, t: Time, x: Answer)
    requires ValidPolicy(p) && RecordOk(p, from) && PassInv(p, from, r, a, t) && t <= x.now <= x.laterNow
    requires x.commit.CasStored?
    ensures PassInv(p, from, NextRecord(r, a), NextAwait(p, a, x), x.laterNow)
  {
    match a
    case Returned =>
    case Raised(_) =>
    case AtPoll(c) =>
      AfterPollProgress(p, from, c, x.poll, t, x.now);
      LaterPassInv(p, from, r, NextAwait(p, a, x), x.now, x.laterNow);
    case AtCancellationPoll(c) =>
      AfterCancellationPollProgress(p, from, c, x.poll, t, x.now, x.laterNow);
    case AtCancel(c) =>
      AfterCancelProgress(p, from, c, x.cancel, t, x.now);
      LaterPassInv(p, from, r, NextAwait(p, a, x), x.now, x.laterNow);
    case AtCommit(c, n, after) =>
      AfterCommitProgress(p, from, c, n, after, t, x.now);
      LaterPassInv(p, from, n, NextAwait(p, a, x), x.now, x.laterNow);
  }

  lemma LaterPassInv(p: RecoveryPolicy, from: RunRecord, r: RunRecord, a: Await, t: Time, u: Time)
    requires ValidPolicy(p) && RecordOk(p, from) && PassInv(p, from, r, a, t) && t <= u
    ensures PassInv(p, from, r, a, u)
  {
    match a
    case Returned =>
    case Raised(_) =>
    case AtPoll(_) =>
    case AtCancellationPoll(_) => LaterCancelPhase(p, from, r, t, u);
    case AtCancel(_) => LaterCancelPhase(p, from, r, t, u);
    case AtCommit(_, n, after) =>
      if !after.ThenReturn? && !n.state.Indeterminate? { LaterCancelPhase(p, from, n, t, u); }
  }

  lemma {:induction false} DriveProgress(p: RecoveryPolicy, from: RunRecord,
                                         r: RunRecord, a: Await, t: Time, xs: seq<Answer>)
    returns (u: Time)
    requires ValidPolicy(p) && RecordOk(p, from) && PassInv(p, from, r, a, t) && Forward(t, xs) && Winning(xs)
    ensures PassInv(p, from, Drive(p, r, a, xs).0, Drive(p, r, a, xs).1, u)
    decreases |xs|
  {
    if xs == [] {
      u := t;
    } else {
      NextAwaitOk(p, a, xs[0]);
      NextProgress(p, from, r, a, t, xs[0]);
      assert Forward(xs[0].laterNow, xs[1..]);
      u := DriveProgress(p, from, NextRecord(r, a), NextAwait(p, a, xs[0]), xs[0].laterNow, xs[1..]);
    }
  }

  /** The first await of a pass that starts when the run is due. */
  lemma BeginProgress(p: RecoveryPolicy, r: RunRecord, c: ReconcileClaim, now: Time)
    requires ValidPolicy(p) && ClaimOk(p, c) && c.record == r && !IsTerminal(r.state) && r.reconcileAt.value <= now
    ensures PassInv(p, r, r, ReconcileClaimed(p, c, now), now)
  {
    ReconcileClaimedOk(p, c, now);
    match r.state
    case Reserved =>
    case Dispatching => assert StaleBoundaryReached(p, r, now);
    case Running => if now >= r.deadlineAt { RequestedPhase(p, r, c, now); }
    case CancellationRequested => DueCancelPhase(p, r, now);
  }

  lemma DueCancelPhase(p: RecoveryPolicy, r: RunRecord, now: Time)
    requires ValidPolicy(p) && RecordOk(p, r) && r.state.CancellationRequested? && r.reconcileAt.value <= now
    ensures CancelPhase(p, r, r, now)
  {
    var span := r.cancelDeadlineAt.value - r.reconcileAt.value;
    if now < r.cancelDeadlineAt.value {
      assert Steps(span, CancelStep(p)) == 1 + Steps(span - CancelStep(p), CancelStep(p));
      StepsMonotone(r.cancelDeadlineAt.value - now - CancelStep(p), span - CancelStep(p), CancelStep(p));
    }
  }

  /** The pass ran to its end, when the run was due, on a clock that does not go back. */
  ghost predicate CompletePass(p: RecoveryPolicy, r: RunRecord, pass: Pass)
    requires ValidPolicy(p) && RecordOk(p, r) && !IsTerminal(r.state)
  {
    && r.reconcileAt.value <= pass.begin && Forward(pass.begin, pass.answers) && Winning(pass.answers)
    && PassResult(p, r, pass).1.Returned?
  }

  /** One complete pass ends the run or uses up part of its bound, whatever the provider answers. */
  lemma PassMakesProgress(p: RecoveryPolicy, r: RunRecord, pass: Pass)
    requires ValidPolicy(p) && RecordOk(p, r) && !IsTerminal(r.state) && CompletePass(p, r, pass)
    ensures Closer(p, r, PassResult(p, r, pass).0)
  {
    BeginProgress(p, r, ClaimOf(r, pass), pass.begin);
    var _ := DriveProgress(p, r, r, ReconcileClaimed(p, ClaimOf(r, pass), pass.begin), pass.begin, pass.answers);
  }

  // ---------------------------------------------------------------- passes and requests, interleaved

  /** What can be written to a run: a complete pass, or a write of one of its requests. */
  datatype Move =
    | Reconciled(pass: Pass)
    | DispatchClaimed(now: Time)
    | IdentityStored(callId: CallId, wakeAt: Time, now: Time)
    | DispatchSealed(now: Time)
    | Expired(checkNow: Time, now: Time)
    | CancelWritten(requestedAt: Time, now: Time)

  /** When the code makes the move.  The clock that sets a running call's first poll is not behind the
      one that created the run. */
  ghost predicate MoveFits(p: RecoveryPolicy, r: RunRecord, m: Move)
    requires ValidPolicy(p) && RecordOk(p, r)
  {
    && !IsTerminal(r.state)
    && match m
       case Reconciled(pass) => CompletePass(p, r, pass)
       case DispatchClaimed(_) => r.state.Reserved?
       case IdentityStored(_, wakeAt, _) => r.state.Dispatching? && r.createdAt <= wakeAt
       case DispatchSealed(_) => r.state.Dispatching?
       case Expired(checkNow, _) => r.state.Reserved? && checkNow >= r.deadlineAt
       case CancelWritten(_, _) => r.state.Reserved? || r.state.Running?
  }

  function ClaimedFor(p: RecoveryPolicy, r: RunRecord, now: Time): Result<RunRecord, Error> {
    Transition(r, Dispatching, now, NO_CHANGES.(reconcileAt := Some(Min(r.deadlineAt, now + p.dispatchStaleAfter))))
  }

  ghost function AfterMove(p: RecoveryPolicy, r: RunRecord, m: Move): RunRecord
    requires ValidPolicy(p) && RecordOk(p, r) && MoveFits(p, r, m)
  {
    match m
    case Reconciled(pass) => PassResult(p, r, pass).0
    case DispatchClaimed(now) => ClaimedFor(p, r, now).value
    case IdentityStored(callId, wakeAt, now) => AfterSpawn(r, Some(callId), wakeAt, now).next
    case DispatchSealed(now) => SealAmbiguous(r, now).next
    case Expired(checkNow, now) => AfterAdmission(p, r, Pending, [], [], checkNow, now).next
    case CancelWritten(requestedAt, now) => AfterCancelRead(p, r, requestedAt, now).next
  }

  /** Whatever is written next, less is left to do. */
  lemma MoveLowers(p: RecoveryPolicy, r: RunRecord, m: Move)
    requires ValidPolicy(p) && RecordOk(p, r) && MoveFits(p, r, m)
    ensures RecordOk(p, AfterMove(p, r, m)) && Bound(p, AfterMove(p, r, m)) < Bound(p, r)
  {
    match m
    case Reconciled(pass) => PassMakesProgress(p, r, pass);
    case DispatchClaimed(_) =>
    case IdentityStored(callId, wakeAt, now) =>
      AfterSpawnOk(p, r, Some(callId), wakeAt, now);
      StepsMonotone(r.deadlineAt - wakeAt, r.deadlineAt - r.createdAt, PollStep(p));
    case DispatchSealed(now) => SealAmbiguousOk(p, r, now);
    case Expired(checkNow, now) => AfterAdmissionOk(p, r, Pending, [], [], checkNow, now);
    case CancelWritten(requestedAt, now) => CancelRequestShortens(p, r, requestedAt, now);
  }

  /** A caller's cancel ends a reservation, and leaves a running call only its cancellation. */
  lemma CancelRequestShortens(p: RecoveryPolicy, r: RunRecord, requestedAt: Time, now: Time)
    requires ValidPolicy(p) && RecordOk(p, r) && (r.state.Reserved? || r.state.Running?)
    ensures var a := AfterCancelRead(p, r, requestedAt, now);
      && a.AtCancelWrite? && RecordOk(p, a.next)
      && Bound(p, a.next) == (if r.state.Reserved? then 0 else CancellationBound(p)) < Bound(p, r)
  {
    AfterCancelReadOk(p, r, requestedAt, now);
  }

  /** Any interleaving of complete passes and service writes of one run. */
  ghost predicate Moves(p: RecoveryPolicy, r: RunRecord, ms: seq<Move>)
    requires ValidPolicy(p) && RecordOk(p, r)
    decreases |ms|
  {
    ms != [] ==>
      && MoveFits(p, r, ms[0])
      && (MoveLowers(p, r, ms[0]);
          Moves(p, AfterMove(p, r, ms[0]), ms[1..]))
  }

  ghost function AfterMoves(p: RecoveryPolicy, r: RunRecord, ms: seq<Move>): (n: RunRecord)
    requires ValidPolicy(p) && RecordOk(p, r) && Moves(p, r, ms)
    ensures RecordOk(p, n)
    decreases |ms|
  {
    if ms == [] then r
    else
      MoveLowers(p, r, ms[0]);
      AfterMoves(p, AfterMove(p, r, ms[0]), ms[1..])
  }

  /** Every run ends: passes and requests together write it at most as often as its bound says, in any
      order, and once they have, it is terminal. */
  lemma {:induction false} EveryRunEnds(p: RecoveryPolicy, r: RunRecord, ms: seq<Move>)
    requires ValidPolicy(p) && RecordOk(p, r) && Moves(p, r, ms)
    ensures |ms| + Bound(p, AfterMoves(p, r, ms)) <= Bound(p, r)
    ensures |ms| == Bound(p, r) ==> IsTerminal(AfterMoves(p, r, ms).state)
    decreases |ms|
  {
    if ms != [] {
      MoveLowers(p, r, ms[0]);
      EveryRunEnds(p, AfterMove(p, r, ms[0]), ms[1..]);
    }
  }

  /** And until then a pass can always be made: six winning answers complete one when it is due. */
  lemma LiveRunMoves(p: RecoveryPolicy, r: RunRecord, pass: Pass)
    requires ValidPolicy(p) && BackoffInRange(p) && RecordOk(p, r) && !IsTerminal(r.state)
    requires r.reconcileAt.value <= pass.begin && Forward(pass.begin, pass.answers)
    requires Winning(pass.answers) && |pass.answers| >= 6
    ensures MoveFits(p, r, Reconciled(pass))
  {
    PassEnds(p, r, pass);
  }

  // ---------------------------------------------------------------- any write of a run

  /** A commit in the middle of a pass: the cancellation is due again at once. */
  predicate Midway(r: RunRecord, n: RunRecord) {
    r.state.CancellationRequested? && n.state.CancellationRequested? && n.reconcileAt == Some(n.updatedAt)
  }

  /** A reschedule is computed no earlier than the run was due, and a running call's first poll is set
      no earlier than the run was created. */
  predicate OnTime(r: RunRecord, n: RunRecord) {
    && (n.state == r.state && r.reconcileAt.Some? ==> r.reconcileAt.value <= n.updatedAt)
    && (r.state.Dispatching? && n.state.Running? && n.reconcileAt.Some? ==> n.createdAt <= n.reconcileAt.value)
  }

  /** A clock that goes back is what it takes: read a poll interval before the run is due, it puts the
      run back to the very time it was due, and nothing has been gained. */
  lemma EarlyPassGainsNothing(p: RecoveryPolicy, c: ReconcileClaim)
    requires ValidPolicy(p) && ClaimOk(p, c) && c.record.state.Running?
    requires c.record.reconcileAt.value <= c.record.deadlineAt
    ensures var a := AfterPoll(p, c, PollPending, c.record.reconcileAt.value - p.pollInterval);
      && a.AtCommit? && RecordOk(p, a.next) && !OnTime(c.record, a.next)
      && a.next.reconcileAt == c.record.reconcileAt && Bound(p, a.next) == Bound(p, c.record)
  {
    AfterPollOk(p, c, PollPending, c.record.reconcileAt.value - p.pollInterval);
  }

  /** A single write, whoever makes it and whatever it interrupts, leaves less to do; only a commit in
      the middle of a pass may leave as much. */
  lemma WriteLowers(p: RecoveryPolicy, r: RunRecord, n: RunRecord)
    requires ValidPolicy(p) && RecordOk(p, r) && RecordOk(p, n) && Successor(r, n) && Spaced(p, r, n) && OnTime(r, n)
    ensures if Midway(r, n) then Bound(p, n) <= Bound(p, r) else Bound(p, n) < Bound(p, r)
  {
    match n.state
    case Reserved =>
    case Dispatching =>
    case Running =>
      if r.state.Running? {
        RescheduledRunning(p, r, n, n.updatedAt);
      } else {
        StepsMonotone(n.deadlineAt - n.reconcileAt.value, n.deadlineAt - n.createdAt, PollStep(p));
      }
    case CancellationRequested => if r.state.CancellationRequested? { RescheduleLowers(p, r, n); }
    case _ =>
  }

  lemma RescheduleLowers(p: RecoveryPolicy, r: RunRecord, n: RunRecord)
    requires ValidPolicy(p) && RecordOk(p, r) && RecordOk(p, n) && Spaced(p, r, n) && OnTime(r, n)
    requires r.state.CancellationRequested? && n.state.CancellationRequested?
    ensures if Midway(r, n) then Bound(p, n) <= Bound(p, r) else Bound(p, n) < Bound(p, r)
  {
    if Midway(r, n) {
      StepsMonotone(n.cancelDeadlineAt.value - n.reconcileAt.value, r.cancelDeadlineAt.value - r.reconcileAt.value,
                    CancelStep(p));
    } else {
      DueCancelPhase(p, r, n.updatedAt);
      RescheduledCancellation(p, r, r, n, n.updatedAt);
    }
  }
}

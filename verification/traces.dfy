/** What a pass and a request send, event by event: what each logged answer and each clock reading leads
    to, without the functions that compute the next step. */
module Traces {
  import opened Outcomes
  import opened Domain
  import opened Identity
  import opened Store
  import opened Recovery
  import opened Service
  import opened System
  import opened Surroundings
  import opened Passes
  import opened Requests
  import opened Decisions

  // ---------------------------------------------------------------- commits in a log

  /** The log goes on by asking the store to commit a record under the claim. */
  predicate CommitsFirst(es: seq<Event>, c: ReconcileClaim) {
    es != [] && es[0].CommitSent? && es[0].claim == c
  }

  /** That commit is all, and the pass raises exactly if it did. */
  predicate CommitsOnly(es: seq<Event>, c: ReconcileClaim, raised: bool) {
    CommitsFirst(es, c) && |es| == 1 && (raised <==> es[0].cas.CasRaised?)
  }

  predicate SealsOnly(es: seq<Event>, c: ReconcileClaim, state: RunState,
                      reason: TerminalReason, now: Time, raised: bool)
  {
    CommitsOnly(es, c, raised) && Ended(c.record, es[0].next, state, reason, now)
  }

  /** A commit after which the pass has more to do if it won, under the same lease over what it wrote. */
  predicate GoesOnIfStored(es: seq<Event>, c: ReconcileClaim, raised: bool) {
    CommitsFirst(es, c) && (!es[0].cas.CasStored? ==> |es| == 1 && (raised <==> es[0].cas.CasRaised?))
  }

  function Onwards(c: ReconcileClaim, n: RunRecord): ReconcileClaim {
    c.(record := n, expectedVersion := n.version)
  }

  /** The log goes on by polling the claim's own call and reading the clock. */
  predicate PollsFirst(es: seq<Event>, c: ReconcileClaim) {
    |es| >= 2 && es[0].Polled? && c.record.callId == Some(es[0].callId) && es[1].ClockRead?
  }

  /** The answer leaves the call open: it is pending, or nothing could be learned, as when the poll
      raised. */
  predicate Open(told: Outcome<PollOutcome>) {
    told.Raises? || told.value.PollPending? || told.value.PollUnavailable?
  }

  predicate Unreachable(told: Outcome<PollOutcome>) {
    told.Raises? || told.value.PollUnavailable?
  }

  /** How the run ends for an answer that closes the call. */
  predicate Closes(es: seq<Event>, c: ReconcileClaim, o: PollOutcome, now: Time, raised: bool) {
    match o
    case PollSucceeded => SealsOnly(es, c, Succeeded, TrajectorySucceeded, now, raised)
    case PollFailed(true) => SealsOnly(es, c, Failed, FunctionTimeout, now, raised)
    case PollFailed(false) => SealsOnly(es, c, Failed, TrajectoryFailed, now, raised)
    case PollTerminated =>
      SealsOnly(es, c, if c.record.state.CancellationRequested? then Cancelled else Failed, Terminated, now, raised)
    case PollIndeterminate => SealsOnly(es, c, Indeterminate, ProviderAmbiguous, now, raised)
    case _ => false
  }

  // ---------------------------------------------------------------- what a cancel sends

  /** One cancel of the claim's own call and one reading of the clock; then, by the reply: sealed from the
      deadline on; accepted, due again after the poll interval with its errors forgotten; raised or
      unavailable, counted up to the cap and tried again after its delay; anything else seals it. */
  predicate CancelTrace(p: RecoveryPolicy, c: ReconcileClaim, es: seq<Event>, raised: bool)
    requires c.record.cancelErrors >= 0 && c.record.cancelDeadlineAt.Some?
  {
    && |es| >= 2 && es[0].CancelSent? && c.record.callId == Some(es[0].callId) && es[1].ClockRead?
    && var r, reply, now, rest := c.record, es[0].reply, es[1].now, es[2..];
       var deadline, count := r.cancelDeadlineAt.value, r.cancelErrors + 1;
       if now >= deadline then SealsOnly(rest, c, Indeterminate, CancellationDeadline, now, raised)
       else if reply == Replied(CancelAccepted) then
         && CommitsOnly(rest, c, raised)
         && Postponed(r, rest[0].next, Min(now + p.pollInterval, deadline), r.providerErrors, 0, Some(now), now)
       else if reply.CancelThrew? || reply == Replied(CancelUnavailable) then
         if count >= p.maxCancelErrors then SealsOnly(rest, c, Indeterminate, CancellationErrorCap, now, raised)
         else (
           match Backoff(p.cancelBackoffInitial, p.cancelBackoffMax, count)
           case Err(_) => rest == [] && raised
           case Ok(delay) =>
             && CommitsOnly(rest, c, raised)
             && Postponed(r, rest[0].next, Min(now + delay, deadline), r.providerErrors, count, Some(now), now))
       else SealsOnly(rest, c, Indeterminate, CancellationAmbiguous, now, raised)
  }

  /** `_cancel`: it reads the clock first, and does not ask the provider from the deadline on. */
  predicate AskTrace(p: RecoveryPolicy, c: ReconcileClaim, es: seq<Event>, raised: bool)
    requires c.record.cancelErrors >= 0 && c.record.cancelDeadlineAt.Some?
  {
    && es != [] && es[0].ClockRead?
    && if es[0].now >= c.record.cancelDeadlineAt.value
       then SealsOnly(es[1..], c, Indeterminate, CancellationDeadline, es[0].now, raised)
       else CancelTrace(p, c, es[1..], raised)
  }

  // ---------------------------------------------------------------- what a cancellation poll sends

  /** A commit that leaves the cancellation due at once, and then the cancel. */
  predicate RecountsThenAsks(p: RecoveryPolicy, c: ReconcileClaim, es: seq<Event>,
                             providerErrors: int, now: Time, raised: bool)
    requires c.record.cancelErrors >= 0 && c.record.cancelDeadlineAt.Some?
  {
    var r := c.record;
    && GoesOnIfStored(es, c, raised)
    && Postponed(r, es[0].next, now, providerErrors, r.cancelErrors, r.cancelLastAttemptAt, now)
    && (es[0].cas.CasStored? ==> AskTrace(p, Onwards(c, es[0].next), es[1..], raised))
  }

  /** One poll of the call; then, by the answer: the run ends; or it is sealed from the deadline on; or a
      failure is counted, up to the cap, or earlier failures are forgotten; and then it asks to cancel. */
  predicate CancellationTrace(p: RecoveryPolicy, c: ReconcileClaim, es: seq<Event>, raised: bool)
    requires c.record.cancelErrors >= 0 && c.record.providerErrors >= 0 && c.record.cancelDeadlineAt.Some?
  {
    && PollsFirst(es, c)
    && var r, told, now, rest := c.record, es[0].outcome, es[1].now, es[2..];
       var count := r.providerErrors + 1;
       if !Open(told) then Closes(rest, c, told.value, now, raised)
       else if now >= r.cancelDeadlineAt.value then
         SealsOnly(rest, c, Indeterminate, CancellationDeadline, now, raised)
       else if !Unreachable(told) then
         if r.providerErrors == 0 then AskTrace(p, c, rest, raised)
         else RecountsThenAsks(p, c, rest, 0, now, raised)
       else if count >= p.maxProviderErrors then SealsOnly(rest, c, Indeterminate, ProviderErrorCap, now, raised)
       else
         match Backoff(p.providerBackoffInitial, p.providerBackoffMax, count)
         case Err(_) => rest == [] && raised
         case Ok(_) => RecountsThenAsks(p, c, rest, count, now, raised)
  }

  /** The cancellation is committed, and polled at once if that won. */
  predicate CancelsThenPolls(p: RecoveryPolicy, c: ReconcileClaim, es: seq<Event>, now: Time, raised: bool)
    requires c.record.cancelErrors >= 0 && c.record.providerErrors >= 0
  {
    && GoesOnIfStored(es, c, raised) && AskedToCancel(p, c.record, es[0].next, now, now)
    && (es[0].cas.CasStored? ==> CancellationTrace(p, Onwards(c, es[0].next), es[1..], raised))
  }

  /** One poll of a running call; then, by the answer: the run ends; or its cancellation is committed, if
      the deadline has come; or it is due again after the poll interval with its errors forgotten; or
      the failure is counted, up to the cap, and tried again after its delay. */
  predicate RunningTrace(p: RecoveryPolicy, c: ReconcileClaim, es: seq<Event>, raised: bool)
    requires c.record.cancelErrors >= 0 && c.record.providerErrors >= 0
  {
    && PollsFirst(es, c)
    && var r, told, now, rest := c.record, es[0].outcome, es[1].now, es[2..];
       var count := r.providerErrors + 1;
       if !Open(told) then Closes(rest, c, told.value, now, raised)
       else if now >= r.deadlineAt then CancelsThenPolls(p, c, rest, now, raised)
       else if !Unreachable(told) then
         && CommitsOnly(rest, c, raised)
         && Postponed(r, rest[0].next, Min(r.deadlineAt, now + p.pollInterval), 0, r.cancelErrors,
                      r.cancelLastAttemptAt, now)
       else if count >= p.maxProviderErrors then SealsOnly(rest, c, Indeterminate, ProviderErrorCap, now, raised)
       else
         match Backoff(p.providerBackoffInitial, p.providerBackoffMax, count)
         case Err(_) => rest == [] && raised
         case Ok(delay) =>
           && CommitsOnly(rest, c, raised)
           && Postponed(r, rest[0].next, Min(r.deadlineAt, now + delay), count, r.cancelErrors,
                          r.cancelLastAttemptAt, now)
  }

  /** A whole pass, by the state of the claimed run and the first reading of the clock. */
  predicate PassTrace(p: RecoveryPolicy, c: ReconcileClaim, es: seq<Event>, raised: bool)
    requires WellFormed(c.record)
  {
    && es != [] && es[0].ClockRead?
    && var r, now, rest := c.record, es[0].now, es[1..];
       match r.state
       case Reserved =>
         if now >= r.deadlineAt then SealsOnly(rest, c, Cancelled, ExpiredBeforeDispatch, now, raised)
         else
           && CommitsOnly(rest, c, raised)
           && Postponed(r, rest[0].next, r.deadlineAt, r.providerErrors, r.cancelErrors, r.cancelLastAttemptAt, now)
       case Dispatching =>
         if now >= r.deadlineAt || now >= r.stateChangedAt + p.dispatchStaleAfter
         then SealsOnly(rest, c, Indeterminate, DispatchAmbiguous, now, raised)
         else rest == [] && !raised
       case Running =>
         if now >= r.deadlineAt then CancelsThenPolls(p, c, rest, now, raised) else RunningTrace(p, c, rest, raised)
       case CancellationRequested => CancellationTrace(p, c, rest, raised)
       case _ => rest == [] && !raised
  }

  // ---------------------------------------------------------------- every logged pass is such a trace

  /** A commit that ends the pass whatever the store answers. */
  lemma EndsWithCommit(p: RecoveryPolicy, a: Await, es: seq<Event>, raised: bool)
    requires PassLog(p, a, es, raised) && a.AtCommit?
    requires a.after.ThenReturn? || (a.after.ThenCancel? && a.next.state.Indeterminate?)
    ensures CommitsOnly(es, a.claim, raised) && es[0].next == a.next
  {
    if !CommitRaised(a, es) {
      assert PassLog(p, Returned, es[1..], raised);
    }
  }

  /** One that has more to do if it won. */
  lemma GoesOnFromCommit(p: RecoveryPolicy, a: Await, es: seq<Event>, raised: bool)
    requires PassLog(p, a, es, raised) && a.AtCommit?
    ensures GoesOnIfStored(es, a.claim, raised) && es[0].next == a.next
  {
    if es[0].cas.CasLost? {
      assert PassLog(p, Returned, es[1..], raised);
    }
  }

  lemma CancelIsTrace(p: RecoveryPolicy, c: ReconcileClaim, es: seq<Event>, raised: bool)
    requires ValidPolicy(p) && AwaitOk(p, AtCancel(c)) && PassLog(p, AtCancel(c), es, raised)
    ensures CancelTrace(p, c, es, raised)
  {
    hide AfterCancel, CommitOk;
    var o, now := CancelOutcomeOf(es[0].reply), es[1].now;
    CancelDecides(p, c, o, now);
    var a := AfterCancel(p, c, o, now);
    assert PassLog(p, a, es[2..], raised);
    if a.AtCommit? {
      EndsWithCommit(p, a, es[2..], raised);
    }
  }

  /** From a reading of the clock on, `_cancel` seals the run or asks the provider. */
  lemma AskIsTrace(p: RecoveryPolicy, c: ReconcileClaim, a: Await, es: seq<Event>, raised: bool)
    requires ValidPolicy(p) && AwaitOk(p, AtCancel(c)) && es != [] && es[0].ClockRead? && PassLog(p, a, es[1..], raised)
    requires if es[0].now >= c.record.cancelDeadlineAt.value
             then Seals(a, c, Indeterminate, CancellationDeadline, es[0].now, ThenReturn) else a == AtCancel(c)
    ensures AskTrace(p, c, es, raised)
  {
    hide CommitOk, CancelTrace, RecordOk;
    if a.AtCommit? {
      EndsWithCommit(p, a, es[1..], raised);
    } else {
      CancelIsTrace(p, c, es[1..], raised);
    }
  }

  /** A commit that leads to a cancel. */
  lemma RecountIsTrace(p: RecoveryPolicy, c: ReconcileClaim, n: RunRecord, es: seq<Event>,
                       providerErrors: int, now: Time, raised: bool)
    requires ValidPolicy(p) && AwaitOk(p, AtCommit(c, n, ThenCancel)) && n.state.CancellationRequested?
    requires c.record.state.CancellationRequested? && PassLog(p, AtCommit(c, n, ThenCancel), es, raised)
    requires Postponed(c.record, n, now, providerErrors, c.record.cancelErrors, c.record.cancelLastAttemptAt, now)
    ensures RecountsThenAsks(p, c, es, providerErrors, now, raised)
  {
    hide AfterCommit, AskTrace;
    var a := AtCommit(c, n, ThenCancel);
    GoesOnFromCommit(p, a, es, raised);
    if es[0].cas.CasStored? {
      CommitDecides(p, c, n, ThenCancel, true, es[1].now);
      assert es[1..][1..] == es[2..] && es[1..][0] == es[1];
      AskIsTrace(p, Onwards(c, n), AfterCommit(c, Some(n), ThenCancel, es[1].now), es[1..], raised);
    }
  }

  lemma CancellationIsTrace(p: RecoveryPolicy, c: ReconcileClaim, es: seq<Event>, raised: bool)
    requires ValidPolicy(p) && AwaitOk(p, AtCancellationPoll(c)) && PassLog(p, AtCancellationPoll(c), es, raised)
    ensures CancellationTrace(p, c, es, raised)
  {
    hide AfterCancellationPoll, CommitOk, AskTrace, RecountsThenAsks;
    var x := Heard(AtCancellationPoll(c), es);
    var a := AfterCancellationPoll(p, c, x.poll, x.now, x.laterNow);
    var rest := es[Spent(AtCancellationPoll(c), es)..];
    CancellationPollDecides(p, c, x.poll, x.now, x.laterNow);
    AfterCancellationPollOk(p, c, x.poll, x.now, x.laterNow);
    assert PassLog(p, a, rest, raised);
    if CancelsAtOnce(c, x.poll, x.now) {
      assert es[2..][0] == es[2] && es[2..][1..] == es[3..];
      AskIsTrace(p, c, a, es[2..], raised);
    } else if a.AtCommit? {
      if a.after.ThenReturn? || a.next.state.Indeterminate? {
        EndsWithCommit(p, a, rest, raised);
      } else {
        RecountIsTrace(p, c, a.next, rest, a.next.providerErrors, x.now, raised);
      }
    }
  }

  lemma CancelsThenPollsIsTrace(p: RecoveryPolicy, c: ReconcileClaim, n: RunRecord, es: seq<Event>,
                                now: Time, raised: bool)
    requires ValidPolicy(p) && AwaitOk(p, AtCommit(c, n, ThenPollCancellation))
    requires PassLog(p, AtCommit(c, n, ThenPollCancellation), es, raised) && AskedToCancel(p, c.record, n, now, now)
    ensures CancelsThenPolls(p, c, es, now, raised)
  {
    hide AfterCommit, CancellationTrace;
    GoesOnFromCommit(p, AtCommit(c, n, ThenPollCancellation), es, raised);
    if es[0].cas.CasStored? {
      CommitDecides(p, c, n, ThenPollCancellation, true, n.updatedAt);
      CancellationIsTrace(p, Onwards(c, n), es[1..], raised);
    }
  }

  lemma RunningIsTrace(p: RecoveryPolicy, c: ReconcileClaim, es: seq<Event>, raised: bool)
    requires ValidPolicy(p) && AwaitOk(p, AtPoll(c)) && PassLog(p, AtPoll(c), es, raised)
    ensures RunningTrace(p, c, es, raised)
  {
    hide AfterPoll, CommitOk, CancelsThenPolls;
    var o, now := PollAnswer(es[0].outcome), es[1].now;
    var a := AfterPoll(p, c, o, now);
    PollDecides(p, c, o, now);
    AfterPollOk(p, c, o, now);
    assert PassLog(p, a, es[2..], raised);
    if a.AtCommit? {
      if a.after.ThenReturn? {
        EndsWithCommit(p, a, es[2..], raised);
      } else {
        CancelsThenPollsIsTrace(p, c, a.next, es[2..], now, raised);
      }
    }
  }

  /** Whatever a pass over a claim sent and was answered, it went exactly as the trace says. */
  lemma PassIsTrace(p: RecoveryPolicy, c: ReconcileClaim, es: seq<Event>, raised: bool)
    requires ValidPolicy(p) && ClaimOk(p, c) && BegunLog(p, c, es, raised)
    ensures PassTrace(p, c, es, raised)
  {
    hide ReconcileClaimed, CommitOk, CancelsThenPolls, RunningTrace, CancellationTrace;
    var a := ReconcileClaimed(p, c, es[0].now);
    BeginDecides(p, c, es[0].now);
    ReconcileClaimedOk(p, c, es[0].now);
    match a
    case AtCommit(_, n, after) =>
      if after.ThenReturn? {
        EndsWithCommit(p, a, es[1..], raised);
      } else {
        CancelsThenPollsIsTrace(p, c, n, es[1..], es[0].now, raised);
      }
    case AtPoll(_) => RunningIsTrace(p, c, es[1..], raised);
    case AtCancellationPoll(_) => CancellationIsTrace(p, c, es[1..], raised);
    case _ =>
  }

  // ---------------------------------------------------------------- what a create sends

  /** The last event reads the run again, and what it finds is the reply. */
  predicate ReloadTrace(r: RunRecord, es: seq<Event>, response: Response) {
    && |es| == 1 && es[0].ReadDone? && es[0].tenant == r.tenantId && es[0].runId == r.runId
    && response == match es[0].found
       case Returns(Some(latest)) => Run(latest)
       case Returns(None) => NotFound
       case Raises => Errored
  }

  /** A write of `n` over `r`: it is the reply if it was stored, and a lost race is reloaded. */
  predicate WriteTrace(r: RunRecord, es: seq<Event>, response: Response) {
    && es != [] && es[0].WriteSent? && es[0].current == r
    && match es[0].cas
       case CasStored => |es| == 1 && response == Run(es[0].next)
       case CasRaised => |es| == 1 && response == Errored
       case CasLost => ReloadTrace(r, es[1..], response)
  }

  /** A dispatch of unknown outcome is sealed. */
  predicate SealTrace(r: RunRecord, es: seq<Event>, response: Response) {
    && |es| >= 2 && es[0].ClockRead? && WriteTrace(r, es[1..], response)
    && Ended(r, es[1].next, Indeterminate, DispatchAmbiguous, es[0].now)
  }

  /** The identity the spawn returned is written; if that does not win, the dispatch is sealed. */
  predicate IdentityTrace(r: RunRecord, id: CallId, es: seq<Event>, response: Response) {
    && |es| >= 3 && es[0].ClockRead? && es[1].ClockRead? && es[2].WriteSent? && es[2].current == r
    && StartedUnder(r, es[2].next, id, es[0].now, es[1].now)
    && (if es[2].cas.CasStored? then |es| == 3 && response == Run(es[2].next) else SealTrace(r, es[3..], response))
  }

  /** The dispatch claim; its winner alone spawns, for the record it won and on the given desktop and
      task. */
  predicate DispatchTrace(p: RecoveryPolicy, r: RunRecord, intent: IntentState, desktop: Bytes, task: Bytes,
                          now: Time, es: seq<Event>, response: Response)
  {
    && es != [] && es[0].DispatchAsked? && es[0].current == r && es[0].intent == intent && es[0].now == now
    && es[0].reconcileAt == Min(r.deadlineAt, now + p.dispatchStaleAfter)
    && match es[0].won
       case Raises => |es| == 1 && response == Errored
       case Returns(None) => ReloadTrace(r, es[1..], response)
       case Returns(Some(won)) =>
         && |es| >= 2 && es[1].SpawnSent? && es[1].runId == won.runId && es[1].deadlineAt == won.deadlineAt
         && es[1].desktop == desktop && es[1].task == task
         && (match es[1].spawned
             case Returns(id) => IdentityTrace(won, id, es[2..], response)
             case Raises => SealTrace(won, es[2..], response))
  }

  /** An admitted or replayed run: one that is no longer reserved is the reply; a reserved one expires
      from its deadline on, and is dispatched before. */
  predicate EnterTrace(p: RecoveryPolicy, o: Owner, r: RunRecord, intent: IntentState, es: seq<Event>,
                       response: Response)
  {
    if !r.state.Reserved? then es == [] && response == Run(r)
    else
      && |es| >= 3 && es[0].ClockRead? && es[1].ClockRead?
      && (if es[0].now >= r.deadlineAt then
            WriteTrace(r, es[2..], response) && Ended(r, es[2].next, Cancelled, ExpiredBeforeDispatch, es[1].now)
          else DispatchTrace(p, r, intent, o.desktop, o.task, es[1].now, es[2..], response))
  }

  /** A fresh reservation, due at once and with the whole run timeout ahead of it. */
  predicate Reservation(p: Params, n: RunRecord, o: Owner, runId: RunId, now: Time) {
    n == RunRecord(runId, o.tenant, n.idempotency, n.desktop, n.task, Reserved, now, now, now + p.runTimeout, now,
                   0, None, Some(now), 0, 0, None, None, None, None, None)
  }

  /** A whole create. */
  predicate CreateTrace(p: Params, o: Owner, runId: RunId, es: seq<Event>, response: Response) {
    if es == [] then response == Errored
    else
      && |es| >= 2 && es[0].ClockRead? && es[1].AdmitSent?
      && Reservation(p, es[1].command.proposed, o, runId, es[0].now)
      && match es[1].verdict
         case Raises => |es| == 2 && response == Errored
         case Returns(KeyUnavailable) => |es| == 2 && response == Errored
         case Returns(Denied(rejection)) => |es| == 2 && response == Rejected(rejection)
         case Returns(Admitted(r)) => EnterTrace(p.policy, o, r, Pending, es[2..], response)
         case Returns(Replayed(r, intent)) => EnterTrace(p.policy, o, r, intent, es[2..], response)
  }

  // ---------------------------------------------------------------- what a cancel request sends

  /** The write of a cancel: accepted if it was stored, or if the reload finds the state it wanted. */
  predicate CancelWriteTrace(r: RunRecord, es: seq<Event>, response: Response) {
    && es != [] && es[0].WriteSent? && es[0].current == r
    && match es[0].cas
       case CasStored => |es| == 1 && response == Response.Cancelling(es[0].next, true)
       case CasRaised => |es| == 1 && response == Errored
       case CasLost =>
         && |es| == 2 && es[1].ReadDone? && es[1].tenant == r.tenantId && es[1].runId == r.runId
         && response == match es[1].found
            case Returns(Some(latest)) => Response.Cancelling(latest, latest.state == es[0].next.state)
            case Returns(None) => NotFound
            case Raises => Errored
  }

  /** A whole cancel request: it ends a reservation, requests the cancellation of a running call, and only
      replies for any other run. */
  predicate CancelRunTrace(p: RecoveryPolicy, tenant: TenantId, runId: RunId, es: seq<Event>, response: Response) {
    && es != [] && es[0].ReadDone? && es[0].tenant == tenant && es[0].runId == runId
    && match es[0].found
       case Raises => |es| == 1 && response == Errored
       case Returns(None) => |es| == 1 && response == NotFound
       case Returns(Some(r)) =>
         match r.state
         case Reserved =>
           && |es| >= 3 && es[1].ClockRead? && CancelWriteTrace(r, es[2..], response)
           && Ended(r, es[2].next, Cancelled, CancelledBeforeDispatch, es[1].now)
         case Dispatching => |es| == 1 && response == Conflict
         case Running =>
           && |es| >= 4 && es[1].ClockRead? && es[2].ClockRead? && CancelWriteTrace(r, es[3..], response)
           && AskedToCancel(p, r, es[3].next, es[1].now, es[2].now)
         case CancellationRequested => |es| == 1 && response == Response.Cancelling(r, true)
         case _ => |es| == 1 && response == Response.Cancelling(r, false)
  }

  // ---------------------------------------------------------------- every logged request is such a trace

  lemma LastWriteIsTrace(a: ServiceAwait, es: seq<Event>, response: Response)
    requires RequestLog(a, es, response) && (a.AtExpiryWrite? || a.AtAmbiguousWrite?)
    ensures WriteTrace(a.record, es, response) && es[0].next == a.next
  {
  }

  lemma SealIsTrace(r: RunRecord, now: Time, es: seq<Event>, response: Response)
    requires WellFormed(r) && r.state.Dispatching? && es != [] && es[0].ClockRead? && es[0].now == now
    requires RequestLog(SealAmbiguous(r, now), es[1..], response)
    ensures SealTrace(r, es, response)
  {
    CallWriteDecides(r, false, now);
    LastWriteIsTrace(SealAmbiguous(r, now), es[1..], response);
  }

  lemma IdentityIsTrace(r: RunRecord, id: CallId, es: seq<Event>, response: Response)
    requires WellFormed(r) && r.state.Dispatching? && |es| >= 2 && es[0].ClockRead? && es[1].ClockRead?
    requires RequestLog(AfterSpawn(r, Some(id), es[0].now, es[1].now), es[2..], response)
    ensures IdentityTrace(r, id, es, response)
  {
    hide AfterSpawn, SealAmbiguous;
    var a, rest := AfterSpawn(r, Some(id), es[0].now, es[1].now), es[2..];
    SpawnDecides(r, Some(id), es[0].now, es[1].now);
    if !rest[0].cas.CasStored? {
      CallWriteDecides(r, false, rest[1].now);
      assert es[3..] == rest[1..] && es[3..][1..] == rest[2..];
      SealIsTrace(r, rest[1].now, es[3..], response);
    }
  }

  /** Whoever won the dispatch claim holds a well-formed dispatching record. */
  lemma WonIsDispatching(quota: nat, e: Event)
    requires e.DispatchAsked? && Genuine(quota, e) && e.won.Returns? && e.won.value.Some?
    ensures WellFormed(e.won.value.value) && e.won.value.value.state.Dispatching?
  {
  }

  lemma SpawnIsTrace(r: RunRecord, desktop: Bytes, task: Bytes, es: seq<Event>, response: Response)
    requires WellFormed(r) && r.state.Dispatching? && RequestLog(AtSpawn(r, desktop, task), es, response)
    ensures es[0].SpawnSent? && es[0].runId == r.runId && es[0].deadlineAt == r.deadlineAt
    ensures es[0].desktop == desktop && es[0].task == task
    ensures if es[0].spawned.Returns? then IdentityTrace(r, es[0].spawned.value, es[1..], response)
            else SealTrace(r, es[1..], response)
  {
    hide AfterSpawn, IdentityTrace, SealTrace;
    var rest := es[1..];
    if es[0].spawned.Returns? {
      SpawnDecides(r, Some(es[0].spawned.value), es[1].now, es[2].now);
      assert rest[2..] == es[3..];
      IdentityIsTrace(r, es[0].spawned.value, rest, response);
    } else {
      SpawnDecides(r, None, es[1].now, es[1].now);
      CallWriteDecides(r, false, es[1].now);
      assert rest[1..] == es[2..];
      SealIsTrace(r, es[1].now, rest, response);
    }
  }

  lemma DispatchIsTrace(quota: nat, p: RecoveryPolicy, r: RunRecord, intent: IntentState, desktop: Bytes, task: Bytes,
                        now: Time, es: seq<Event>, response: Response)
    requires es != [] && Genuine(quota, es[0])
    requires RequestLog(AtClaimDispatch(r, intent, now, Min(r.deadlineAt, now + p.dispatchStaleAfter), desktop, task),
                        es, response)
    ensures DispatchTrace(p, r, intent, desktop, task, now, es, response)
  {
    hide IdentityTrace, SealTrace, Genuine;
    if es[0].won.Returns? && es[0].won.value.Some? {
      WonIsDispatching(quota, es[0]);
      SpawnIsTrace(es[0].won.value.value, desktop, task, es[1..], response);
      assert es[1..][0] == es[1] && es[1..][1..] == es[2..];
    }
  }

  lemma EnterIsTrace(quota: nat, p: RecoveryPolicy, o: Owner, r: RunRecord, intent: IntentState,
                     es: seq<Event>, response: Response)
    requires EnterLog(p, o, r, intent, es, response) && AllGenuine(quota, es)
    ensures EnterTrace(p, o, r, intent, es, response)
  {
    hide DispatchTrace, RequestLog, Genuine;
    if r.state.Reserved? {
      var a := AfterAdmission(p, r, intent, o.desktop, o.task, es[0].now, es[1].now);
      RequestLogGoes(a, es[2..], response);
      assert Genuine(quota, es[2]);
      if es[0].now >= r.deadlineAt {
        LastWriteIsTrace(a, es[2..], response);
      } else {
        DispatchIsTrace(quota, p, r, intent, o.desktop, o.task, es[1].now, es[2..], response);
      }
    }
  }

  lemma RequestLogGoes(a: ServiceAwait, es: seq<Event>, response: Response)
    requires RequestLog(a, es, response)
    ensures Waiting(a) && es != []
  {
  }

  lemma AllGenuineRest(quota: nat, es: seq<Event>, n: nat)
    requires AllGenuine(quota, es) && n <= |es|
    ensures AllGenuine(quota, es[n..])
  {
    var rest := es[n..];
    forall k {:trigger Genuine(quota, rest[k])} | 0 <= k < |rest| ensures Genuine(quota, rest[k]) {
      assert Genuine(quota, es[n + k]);
    }
  }

  lemma ProposalIsReservation(p: Params, ring: IdentityKeyring, o: Owner, runId: RunId, now: Time)
    requires Propose(p, ring, o, runId, now).Ok?
    ensures Reservation(p, Propose(p, ring, o, runId, now).value.proposed, o, runId, now)
  {
    hide Prove;
  }

  /** Whatever a create sent and was answered, it went exactly as the trace says. */
  lemma CreateIsTrace(p: Params, quota: nat, ring: IdentityKeyring, o: Owner, runId: RunId, es: seq<Event>,
                      response: Response)
    requires CreateLog(p, ring, o, runId, es, response) && AllGenuine(quota, es)
    ensures CreateTrace(p, o, runId, es, response)
    ensures es == [] <==> !ProofsOk(p, ring, o)
  {
    hide Propose, ProofsOk, EnterLog, EnterTrace;
    if ProofsOk(p, ring, o) {
      ProposalIsReservation(p, ring, o, runId, es[0].now);
      AllGenuineRest(quota, es, 2);
      match es[1].verdict
      case Returns(Admitted(r)) => EnterIsTrace(quota, p.policy, o, r, Pending, es[2..], response);
      case Returns(Replayed(r, intent)) => EnterIsTrace(quota, p.policy, o, r, intent, es[2..], response);
      case _ =>
    }
  }

  lemma CancelWriteIsTrace(a: ServiceAwait, es: seq<Event>, response: Response)
    requires RequestLog(a, es, response) && a.AtCancelWrite?
    requires if a.record.state.Reserved? then a.next.state.Cancelled? else a.next.state.CancellationRequested?
    ensures CancelWriteTrace(a.record, es, response) && es[0].next == a.next
  {
  }

  /** Whatever a cancel request sent and was answered, it went exactly as the trace says. */
  lemma CancelRunIsTrace(p: RecoveryPolicy, tenant: TenantId, runId: RunId, es: seq<Event>, response: Response)
    requires CancelRunLog(p, tenant, runId, es, response)
    ensures CancelRunTrace(p, tenant, runId, es, response)
  {
    hide RequestLog, CancelWriteTrace;
    assert es[..1][0] == es[0];
    if es[0].found.Returns? && es[0].found.value.Some? {
      var r := es[0].found.value.value;
      if r.state.Reserved? {
        RequestLogGoes(AfterCancelRead(p, r, es[1].now, es[1].now), es[2..], response);
        CancelWriteIsTrace(AfterCancelRead(p, r, es[1].now, es[1].now), es[2..], response);
      } else if r.state.Running? {
        RequestLogGoes(AfterCancelRead(p, r, es[1].now, es[2].now), es[3..], response);
        CancelWriteIsTrace(AfterCancelRead(p, r, es[1].now, es[2].now), es[3..], response);
      }
    }
  }
}

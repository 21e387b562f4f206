/** What a create or cancel request looks like in the log of its environment: which calls it makes, how
    it goes on given exactly what each of them answered, and what it replies. */
module Requests {
  import opened Outcomes
  import opened Domain
  import opened Identity
  import opened Store
  import opened Recovery
  import opened Service
  import opened System
  import opened Surroundings

  datatype Response =
    | Run(record: RunRecord)
    | Cancelling(record: RunRecord, accepted: bool)
    | Rejected(rejection: Rejection)
    | NotFound
    | Conflict
    | Errored

  // ---------------------------------------------------------------- one await

  predicate Waiting(a: ServiceAwait) {
    !a.Answered? && !a.Failed500?
  }

  predicate Writes(e: Event, r: RunRecord, n: RunRecord) {
    e.WriteSent? && e.current == r && e.next == n
  }

  /** The log goes on with the call that the await makes, and with the clock readings that follow it. */
  predicate Calls(a: ServiceAwait, es: seq<Event>) {
    && es != []
    && match a
       case Answered => false
       case Failed500(_) => false
       case AtClaimDispatch(r, intent, now, at, _, _) =>
         es[0].DispatchAsked? && (es[0].current, es[0].intent, es[0].now, es[0].reconcileAt) == (r, intent, now, at)
       case AtSpawn(r, desktop, task) =>
         && es[0].SpawnSent?
         && (es[0].runId, es[0].desktop, es[0].task, es[0].deadlineAt) == (r.runId, desktop, task, r.deadlineAt)
         && |es| >= 2 && es[1].ClockRead? && (es[0].spawned.Returns? ==> |es| >= 3 && es[2].ClockRead?)
       case AtCallWrite(r, n) => Writes(es[0], r, n) && (es[0].cas.CasStored? || (|es| >= 2 && es[1].ClockRead?))
       case AtExpiryWrite(r, n) => Writes(es[0], r, n)
       case AtAmbiguousWrite(r, n) => Writes(es[0], r, n)
       case AtCancelWrite(r, n) => Writes(es[0], r, n)
  }

  /** How many events belong to the await. */
  function Takes(a: ServiceAwait, es: seq<Event>): nat
    requires Calls(a, es)
  {
    if a.AtSpawn? then (if es[0].spawned.Returns? then 3 else 2)
    else if a.AtCallWrite? then (if es[0].cas.CasStored? then 1 else 2)
    else 1
  }

  /** Where the request waits next. */
  function Next(a: ServiceAwait, es: seq<Event>): ServiceAwait
    requires Calls(a, es)
  {
    match a
    case AtClaimDispatch(_, _, _, _, desktop, task) =>
      AfterClaimDispatch(if es[0].won.Returns? then es[0].won.value else None, desktop, task)
    case AtSpawn(r, _, _) =>
      if es[0].spawned.Returns? then AfterSpawn(r, Some(es[0].spawned.value), es[1].now, es[2].now)
      else AfterSpawn(r, None, es[1].now, es[1].now)
    case AtCallWrite(r, _) => AfterCallWrite(r, es[0].cas.CasStored?, if es[0].cas.CasStored? then 0 else es[1].now)
    case AtExpiryWrite(_, _) => Answered
    case AtAmbiguousWrite(_, _) => Answered
    case AtCancelWrite(_, _) => Answered
  }

  // ---------------------------------------------------------------- how a request ends

  predicate Reads(es: seq<Event>, tenant: TenantId, runId: RunId) {
    |es| == 1 && es[0].ReadDone? && es[0].tenant == tenant && es[0].runId == runId
  }

  /** The reload after a lost race. */
  predicate Reloaded(r: RunRecord, es: seq<Event>, response: Response) {
    && Reads(es, r.tenantId, r.runId)
    && response == match es[0].found
       case Raises => Errored
       case Returns(None) => NotFound
       case Returns(Some(latest)) => Run(latest)
  }

  /** A cancel that lost its race is accepted if the reload finds the state it wanted to write. */
  predicate CancelReloaded(r: RunRecord, es: seq<Event>, response: Response) {
    && Reads(es, r.tenantId, r.runId)
    && response == match es[0].found
       case Raises => Errored
       case Returns(None) => NotFound
       case Returns(Some(latest)) =>
         Cancelling(latest, if r.state.Reserved? then latest.state.Cancelled? else latest.state.CancellationRequested?)
  }

  /** The call `e` was the last but for a reload: what else the request does, and its reply. */
  predicate Finishes(a: ServiceAwait, e: Event, rest: seq<Event>, response: Response) {
    match a
    case Answered => false
    case Failed500(_) => false
    case AtSpawn(_, _, _) => false
    case AtClaimDispatch(r, _, _, _, _, _) =>
      e.DispatchAsked? && (if e.won.Raises? then rest == [] && response.Errored? else Reloaded(r, rest, response))
    case AtCallWrite(_, n) => rest == [] && response == Run(n)
    case AtExpiryWrite(r, n) => e.WriteSent? && WriteFinishes(r, n, e.cas, rest, response)
    case AtAmbiguousWrite(r, n) => e.WriteSent? && WriteFinishes(r, n, e.cas, rest, response)
    case AtCancelWrite(r, n) =>
      && e.WriteSent?
      && match e.cas
         case CasStored => rest == [] && response == Cancelling(n, true)
         case CasLost => CancelReloaded(r, rest, response)
         case CasRaised => rest == [] && response.Errored?
  }

  /** `_transition_or_reload`. */
  predicate WriteFinishes(r: RunRecord, n: RunRecord, cas: CasAnswer, rest: seq<Event>, response: Response) {
    match cas
    case CasStored => rest == [] && response == Run(n)
    case CasLost => Reloaded(r, rest, response)
    case CasRaised => rest == [] && response.Errored?
  }

  /** From this await on, these are all the calls the request makes, each followed up as the step
      functions say for the answer it got, and this is what it replies. */
  predicate RequestLog(a: ServiceAwait, es: seq<Event>, response: Response)
    decreases |es|
  {
    && Calls(a, es)
    && (if Waiting(Next(a, es)) then RequestLog(Next(a, es), es[Takes(a, es)..], response)
        else Finishes(a, es[0], es[Takes(a, es)..], response))
  }

  lemma Goes(a: ServiceAwait, head: seq<Event>, rest: seq<Event>, response: Response)
    requires Calls(a, head) && Takes(a, head) == |head|
    requires if Waiting(Next(a, head)) then RequestLog(Next(a, head), rest, response)
             else Finishes(a, head[0], rest, response)
    ensures RequestLog(a, head + rest, response)
  {
    assert (head + rest)[|head|..] == rest;
  }

  // ---------------------------------------------------------------- whole requests

  /** `create_run`, once admission accepted it: a first submission and a replay take the same path. */
  predicate EnterLog(p: RecoveryPolicy, o: Owner, r: RunRecord, intent: IntentState, es: seq<Event>,
                     response: Response)
  {
    if !r.state.Reserved? then es == [] && response == Run(r)
    else
      && |es| >= 2 && es[0].ClockRead? && es[1].ClockRead?
      && RequestLog(AfterAdmission(p, r, intent, o.desktop, o.task, es[0].now, es[1].now), es[2..], response)
  }

  predicate VerdictLog(p: RecoveryPolicy, o: Owner, verdict: Outcome<AdmitResult>, es: seq<Event>, response: Response) {
    match verdict
    case Raises => es == [] && response.Errored?
    case Returns(KeyUnavailable) => es == [] && response.Errored?
    case Returns(Denied(rejection)) => es == [] && response == Rejected(rejection)
    case Returns(Admitted(r)) => EnterLog(p, o, r, Pending, es, response)
    case Returns(Replayed(r, intent)) => EnterLog(p, o, r, intent, es, response)
  }

  predicate ProofsOk(p: Params, ring: IdentityKeyring, o: Owner) {
    && Prove(p.mac, ring, o.tenant, IdempotencyKind, o.key).Ok?
    && Prove(p.mac, ring, o.tenant, DesktopKind, o.desktop).Ok?
    && Prove(p.mac, ring, o.tenant, TaskKind, o.task).Ok?
  }

  /** `create_run`: nothing without its three proofs; otherwise its own proposal, and what admission
      decides is what it replies, or where it goes on. */
  predicate CreateLog(p: Params, ring: IdentityKeyring, o: Owner, runId: RunId, es: seq<Event>, response: Response) {
    if !ProofsOk(p, ring, o) then es == [] && response.Errored?
    else
      && |es| >= 2 && es[0].ClockRead? && es[1].AdmitSent?
      && Propose(p, ring, o, runId, es[0].now) == Ok(es[1].command)
      && VerdictLog(p.policy, o, es[1].verdict, es[2..], response)
  }

  /** `cancel_run`: it writes what the record it read calls for. */
  predicate CancelRunLog(p: RecoveryPolicy, tenant: TenantId, runId: RunId, es: seq<Event>, response: Response) {
    && es != [] && Reads(es[..1], tenant, runId)
    && match es[0].found
       case Raises => |es| == 1 && response.Errored?
       case Returns(None) => |es| == 1 && response.NotFound?
       case Returns(Some(r)) =>
         if r.state.CancellationRequested? then |es| == 1 && response == Cancelling(r, true)
         else if IsTerminal(r.state) then |es| == 1 && response == Cancelling(r, false)
         else if r.state.Reserved? then
           |es| >= 2 && es[1].ClockRead? && RequestLog(AfterCancelRead(p, r, es[1].now, es[1].now), es[2..], response)
         else if r.state.Running? then
           && |es| >= 3 && es[1].ClockRead? && es[2].ClockRead?
           && RequestLog(AfterCancelRead(p, r, es[1].now, es[2].now), es[3..], response)
         else |es| == 1 && response.Conflict?
  }

  // ---------------------------------------------------------------- what the logs show

  predicate NoSpawns(es: seq<Event>) {
    forall k :: 0 <= k < |es| ==> !es[k].SpawnSent?
  }

  /** The claim was won, and the spawn is for its record, on this desktop and task. */
  predicate SpawnAfterWin(claim: Event, spawn: Event, desktop: Bytes, task: Bytes) {
    && spawn.SpawnSent? && claim.DispatchAsked? && claim.won.Returns? && claim.won.value.Some?
    && spawn.runId == claim.won.value.value.runId && spawn.deadlineAt == claim.won.value.value.deadlineAt
    && spawn.desktop == desktop && spawn.task == task
  }

  /** At most one spawn, right after a dispatch claim that was won. */
  predicate SpawnsByWinner(es: seq<Event>, desktop: Bytes, task: Bytes) {
    && (forall k :: 0 <= k < |es| && es[k].SpawnSent? ==> k > 0 && SpawnAfterWin(es[k - 1], es[k], desktop, task))
    && (forall j, k :: 0 <= j < k < |es| ==> !(es[j].SpawnSent? && es[k].SpawnSent?))
  }

  lemma {:induction false} NoMoreSpawns(a: ServiceAwait, es: seq<Event>, response: Response)
    requires !a.AtClaimDispatch? && !a.AtSpawn? && RequestLog(a, es, response)
    ensures NoSpawns(es)
    decreases |es|
  {
    var rest := es[Takes(a, es)..];
    if Waiting(Next(a, es)) {
      NoMoreSpawns(Next(a, es), rest, response);
    }
    forall k | 0 <= k < |es| ensures !es[k].SpawnSent? {
      if k >= Takes(a, es) { assert es[k] == rest[k - Takes(a, es)]; }
    }
  }

  lemma SpawnsOnce(a: ServiceAwait, es: seq<Event>, response: Response)
    requires a.AtSpawn? && RequestLog(a, es, response)
    ensures es[0].SpawnSent? && NoSpawns(es[1..])
  {
    var rest := es[Takes(a, es)..];
    NoMoreSpawns(Next(a, es), rest, response);
    forall k | 0 <= k < |es[1..]| ensures !es[1..][k].SpawnSent? {
      if k + 1 >= Takes(a, es) { assert es[1..][k] == rest[k + 1 - Takes(a, es)]; }
    }
  }

  lemma ClaimSpawns(a: ServiceAwait, es: seq<Event>, response: Response)
    requires a.AtClaimDispatch? && RequestLog(a, es, response)
    ensures SpawnsByWinner(es, a.desktop, a.task)
  {
    var rest := es[1..];
    if Waiting(Next(a, es)) {
      SpawnsOnce(Next(a, es), rest, response);
    }
    forall k | 1 < k < |es| ensures !es[k].SpawnSent? {
      if Waiting(Next(a, es)) { assert es[k] == rest[1..][k - 2]; }
    }
  }

  lemma SpawnsLater(head: seq<Event>, es: seq<Event>, desktop: Bytes, task: Bytes)
    requires NoSpawns(head) && SpawnsByWinner(es, desktop, task)
    ensures SpawnsByWinner(head + es, desktop, task)
  {
    var all := head + es;
    forall k | 0 <= k < |all| && all[k].SpawnSent? ensures k > 0 && SpawnAfterWin(all[k - 1], all[k], desktop, task) {
      assert all[k] == es[k - |head|];
    }
    forall j, k | 0 <= j < k < |all| ensures !(all[j].SpawnSent? && all[k].SpawnSent?) {
      if j >= |head| { assert all[j] == es[j - |head|] && all[k] == es[k - |head|]; }
    }
  }

  /** A create spawns at most once, right after it won the dispatch claim, for the record it won and on
      its own desktop and task. */
  lemma SpawnOnlyByWinner(p: Params, ring: IdentityKeyring, o: Owner, runId: RunId, es: seq<Event>, response: Response)
    requires CreateLog(p, ring, o, runId, es, response)
    ensures SpawnsByWinner(es, o.desktop, o.task)
  {
    if |es| > 2 {
      var r := es[1].verdict.value.record;
      var intent := if es[1].verdict.value.Admitted? then Pending else es[1].verdict.value.intent;
      var a := AfterAdmission(p.policy, r, intent, o.desktop, o.task, es[2].now, es[3].now);
      assert es[2..][2..] == es[4..];
      if a.AtClaimDispatch? { ClaimSpawns(a, es[4..], response); } else { NoMoreSpawns(a, es[4..], response); }
      SpawnsLater(es[..4], es[4..], o.desktop, o.task);
      assert es == es[..4] + es[4..];
    }
  }

  /** When a cancel says it was not accepted and yet returns a run whose cancellation is requested:
      exactly when it had read the run as reserved, lost its write, and on reloading found that the run
      was dispatched and its cancellation requested meanwhile. */
  lemma NotAcceptedYetRequestedExactly(p: RecoveryPolicy, tenant: TenantId,
                                       runId: RunId, es: seq<Event>, response: Response)
    requires CancelRunLog(p, tenant, runId, es, response)
    ensures response.Cancelling? && !response.accepted && response.record.state.CancellationRequested? <==>
      && es[0].found.Returns? && es[0].found.value.Some? && es[0].found.value.value.state.Reserved?
      && |es| == 4 && es[2].WriteSent? && es[2].cas.CasLost?
      && es[3].ReadDone? && es[3].found.Returns? && es[3].found.value.Some?
      && es[3].found.value.value.state.CancellationRequested?
  {
    if es[0].found.Returns? && es[0].found.value.Some? {
      var r := es[0].found.value.value;
      if r.state.Reserved? {
        CancelWriteEnds(AfterCancelRead(p, r, es[1].now, es[1].now), es[2..], response);
      } else if r.state.Running? {
        CancelWriteEnds(AfterCancelRead(p, r, es[1].now, es[2].now), es[3..], response);
      }
    }
  }

  /** Otherwise accepted means what it says. */
  lemma AcceptedMeansCancelled(p: RecoveryPolicy, tenant: TenantId, runId: RunId, es: seq<Event>, response: Response)
    requires CancelRunLog(p, tenant, runId, es, response) && response.Cancelling? && response.accepted
    ensures response.record.state.Cancelled? || response.record.state.CancellationRequested?
  {
    if |es| > 1 {
      var r := es[0].found.value.value;
      if r.state.Reserved? {
        CancelWriteEnds(AfterCancelRead(p, r, es[1].now, es[1].now), es[2..], response);
      } else {
        CancelWriteEnds(AfterCancelRead(p, r, es[1].now, es[2].now), es[3..], response);
      }
    }
  }

  /** The only write of a cancel: how it ends. */
  lemma CancelWriteEnds(a: ServiceAwait, es: seq<Event>, response: Response)
    requires RequestLog(a, es, response) && (a.AtCancelWrite? || !Waiting(a))
    ensures a.AtCancelWrite? && Writes(es[0], a.record, a.next) && Finishes(a, es[0], es[1..], response)
  {
  }
}
